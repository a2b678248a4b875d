/**
 The incident export (src/modules/incident/incident.controller.ts:127-218) and a reader after section 2 of RFC 4180,
 with LF for the line ends.
 */
module Csv {
  import opened Common
  import opened Digits
  import opened IncidentModel

  /** An exported incident. Identifier and times are texts; the check name is '' when the check is gone. */
  datatype Row = Row(
    id: string, checkName: string, status: Status, openedAt: string, resolvedAt: Option<string>, noteCount: nat)

  datatype Export = Refused(reason: string) | Streaming(text: string, finished: bool)

  const HEADER_FIELDS: seq<string> := ["id", "checkName", "status", "openedAt", "resolvedAt", "noteCount"]

  // ----- Writing -----

  function StatusText(s: Status): string {
    match s
    case Open => "open"
    case Monitoring => "monitoring"
    case Resolved => "resolved"
  }

  /** Every quote doubled. */
  function Doubled(s: string): string {
    if s == "" then "" else (if s[0] == '"' then "\"\"" else [s[0]]) + Doubled(s[1..])
  }

  function Quoted(s: string): string { "\"" + Doubled(s) + "\"" }

  /** The six cells as they are written. */
  function Cells(r: Row): seq<string> {
    [r.id, Quoted(r.checkName), StatusText(r.status), r.openedAt,
     if r.resolvedAt.Some? then r.resolvedAt.value else "", Decimal(r.noteCount)]
  }

  /** `cells.join(',')`. */
  function Join(cells: seq<string>): string {
    if cells == [] then "" else if |cells| == 1 then cells[0] else cells[0] + "," + Join(cells[1..])
  }

  /** The header line: the column names joined. */
  const HEADER := Join(HEADER_FIELDS) + "\n"

  function RowsText(rows: seq<Row>): string {
    if rows == [] then "" else Join(Cells(rows[0])) + "\n" + RowsText(rows[1..])
  }

  /** The answer to a request for the range `from` to `to`; each is absent (or empty), invalid or a time. */
  datatype DateParam = Missing | Invalid | Date(t: Time)

  lemma {:induction false} RowsTextOneMore(rows: seq<Row>, r: Row)
    ensures RowsText(rows + [r]) == RowsText(rows) + Join(Cells(r)) + "\n"
  {
    if rows == [] {
      assert rows + [r] == [r] && [r][1..] == [];
    } else {
      assert (rows + [r])[1..] == rows[1..] + [r];
      RowsTextOneMore(rows[1..], r);
    }
  }

  lemma {:induction false} NextRow(head: string, rows: seq<Row>, k: nat)
    requires k < |rows|
    ensures head + RowsText(rows[..k + 1]) == (head + RowsText(rows[..k])) + (Join(Cells(rows[k])) + "\n")
  {
    RowsTextOneMore(rows[..k], rows[k]);
    assert rows[..k + 1] == rows[..k] + [rows[k]];
  }

  /** One line of the export: read back, it is one record with the row's six fields. */
  method RowLine(row: Row) returns (line: string)
    ensures Exportable(row) ==> ReadRecord(line) == Got(FieldsOf(row), "") && RowOf(FieldsOf(row)) == Some(row)
    ensures line == Join(Cells(row)) + "\n"
  {
    var resolved := "";
    if row.resolvedAt.Some? {
      resolved := row.resolvedAt.value;
    }
    var cells := [row.id, "\"" + Doubled(row.checkName) + "\"", StatusText(row.status), row.openedAt, resolved,
                  Decimal(row.noteCount)];
    line := Join(cells) + "\n";
    if Exportable(row) {
      RowReadsBack(row, "");
      assert line + "" == line;
    }
  }

  /**
   `exportIncidents`. Two dates, valid and at most 90 days apart, or a refusal with its reason. The cursor fails, if it
   does, before row `failsAt`; the response is found ended, if it is, once `endsAt` rows have been written. Nothing else
   stops the rows: a reader gets the header and the first `written` of them, which are all of them otherwise.
   */
  method ExportIncidents(from: DateParam, to: DateParam, rows: seq<Row>, failsAt: Option<nat>, endsAt: Option<nat>)
    returns (r: Export, written: nat)
    ensures r.Streaming? <==> from.Date? && to.Date? && to.t - from.t <= 7_776_000_000
    ensures from.Missing? || to.Missing? ==> r == Refused("`from` and `to` query parameters are required")
    ensures !from.Missing? && !to.Missing? && (from.Invalid? || to.Invalid?) ==>
              r == Refused("`from` and `to` must be valid ISO dates")
    ensures from.Date? && to.Date? && r.Refused? ==> r == Refused("Date range must not exceed 90 days")
    ensures r.Streaming? ==>
              && written <= |rows| && (written < |rows| ==> failsAt == Some(written) || endsAt == Some(written))
              && (failsAt.Some? ==> written <= failsAt.value) && (endsAt.Some? ==> written <= endsAt.value)
              && (r.finished <==> endsAt != Some(written)) && r.text == HEADER + RowsText(rows[..written])
    ensures r.Streaming? && failsAt.None? && endsAt.None? ==> r.finished && written == |rows|
    ensures r.Streaming? && (forall i | 0 <= i < written :: Exportable(rows[i])) ==>
              var file := ReadFile(r.text);
              && file.Some? && |file.value| == written + 1 && RowsOf(file.value[1..]) == Some(rows[..written])
              && file.value[0] == ["id", "checkName", "status", "openedAt", "resolvedAt", "noteCount"]
  {
    written := 0;
    if from.Missing? || to.Missing? {
      return Refused("`from` and `to` query parameters are required"), written;
    }
    if from.Invalid? || to.Invalid? {
      return Refused("`from` and `to` must be valid ISO dates"), written;
    }
    if to.t - from.t > 90 * 24 * 60 * 60 * 1000 {
      return Refused("Date range must not exceed 90 days"), written;
    }
    var text;
    text, written := StreamRows(HEADER, rows, failsAt, endsAt);
    r := Streaming(text, endsAt != Some(written));
    if forall i | 0 <= i < written :: Exportable(rows[i]) {
      ExportReadsBack(rows[..written]);
    }
  }

  /** The loop over the cursor: whole rows, in order, until it stops. */
  method StreamRows(head: string, rows: seq<Row>, failsAt: Option<nat>, endsAt: Option<nat>) returns (out: string, k: nat)
    ensures k <= |rows| && (k < |rows| ==> failsAt == Some(k) || endsAt == Some(k))
    ensures (failsAt.Some? ==> k <= failsAt.value) && (endsAt.Some? ==> k <= endsAt.value)
    ensures out == head + RowsText(rows[..k])
  {
    out, k := head, 0;
    while k < |rows| && failsAt != Some(k)
      invariant 0 <= k <= |rows| && out == head + RowsText(rows[..k])
      invariant (failsAt.Some? ==> k <= failsAt.value) && (endsAt.Some? ==> k <= endsAt.value)
    {
      if endsAt == Some(k) {
        break;
      }
      var line := RowLine(rows[k]);
      out := out + line;
      NextRow(head, rows, k);
      k := k + 1;
    }
  }

  // ----- Reading -----

  datatype Read<T> = Bad | Got(value: T, rest: string)

  /** A quoted field, after its opening quote: two quotes stand for one, a single one ends the field. */
  function ReadQuoted(s: string): (r: Read<string>)
    ensures r.Got? ==> |r.rest| < |s|
  {
    if s == "" then Bad
    else if s[0] == '"' then
      if |s| > 1 && s[1] == '"' then Push('"', ReadQuoted(s[2..])) else Got("", s[1..])
    else Push(s[0], ReadQuoted(s[1..]))
  }

  function Push(c: char, r: Read<string>): Read<string> {
    match r
    case Bad => Bad
    case Got(s, rest) => Got([c] + s, rest)
  }

  /** An unquoted field: up to a comma or a line end; a quote may not occur in it. */
  function ReadPlain(s: string): (r: Read<string>)
    ensures r.Got? ==> |r.rest| <= |s|
  {
    if s == "" || s[0] == ',' || s[0] == '\n' then Got("", s)
    else if s[0] == '"' || s[0] == '\r' then Bad
    else Push(s[0], ReadPlain(s[1..]))
  }

  function ReadField(s: string): (r: Read<string>)
    ensures r.Got? ==> |r.rest| <= |s|
  {
    if s != "" && s[0] == '"' then ReadQuoted(s[1..]) else ReadPlain(s)
  }

  /** The fields of one record, up to and including its line end. */
  function ReadRecord(s: string): (r: Read<seq<string>>)
    ensures r.Got? ==> |r.rest| < |s| || r.rest == ""
    decreases |s|
  {
    match ReadField(s)
    case Bad => Bad
    case Got(field, rest) =>
      if rest == "" then Got([field], "")
      else if rest[0] == '\n' then Got([field], rest[1..])
      else if rest[0] == ',' then
        match ReadRecord(rest[1..]) { case Bad => Bad case Got(fields, rest') => Got([field] + fields, rest') }
      else Bad
  }

  /** A whole file: its records. */
  function ReadFile(s: string): Option<seq<seq<string>>>
    decreases |s|
  {
    if s == "" then Some([])
    else
      match ReadRecord(s)
      case Bad => None
      case Got(record, rest) =>
        match ReadFile(rest) { case None => None case Some(records) => Some([record] + records) }
  }

  /** The row a record stands for. */
  function RowOf(fields: seq<string>): Option<Row> {
    if |fields| != 6 || !AllDigits(fields[5]) then None
    else
      var n := ValueOf(fields[5]);
      var status := if fields[2] == "open" then Some(Open) else if fields[2] == "monitoring" then Some(Monitoring)
                    else if fields[2] == "resolved" then Some(Resolved) else None;
      if status.None? || n < 0 then None
      else Some(Row(fields[0], fields[1], status.value, fields[3], if fields[4] == "" then None else Some(fields[4]), n))
  }

  // ----- Reading back what was written -----

  /** No comma, quote or line end. */
  predicate PlainField(s: string) {
    forall i | 0 <= i < |s| :: s[i] != ',' && s[i] != '"' && s[i] != '\n' && s[i] != '\r'
  }

  /** What identifiers and ISO times look like; the check name is unrestricted. */
  predicate Exportable(r: Row) {
    && PlainField(r.id) && PlainField(r.openedAt)
    && (r.resolvedAt.Some? ==> PlainField(r.resolvedAt.value) && r.resolvedAt.value != "")
  }

  lemma {:induction false} PlainReadsBack(s: string, rest: string)
    requires PlainField(s) && (rest == "" || rest[0] == ',' || rest[0] == '\n')
    ensures ReadPlain(s + rest) == Got(s, rest)
  {
    if s == "" {
      assert s + rest == rest;
    } else {
      assert (s + rest)[1..] == s[1..] + rest;
      PlainReadsBack(s[1..], rest);
      assert [s[0]] + s[1..] == s;
    }
  }

  lemma {:induction false} QuotedReadsBack(s: string, rest: string)
    requires rest == "" || rest[0] != '"'
    ensures ReadQuoted(Doubled(s) + "\"" + rest) == Got(s, rest)
  {
    var t := Doubled(s) + "\"" + rest;
    if s == "" {
      assert t == "\"" + rest && t[1..] == rest;
    } else {
      var more := Doubled(s[1..]) + "\"" + rest;
      QuotedReadsBack(s[1..], rest);
      assert [s[0]] + s[1..] == s;
      if s[0] == '"' {
        assert t == "\"\"" + more && t[2..] == more;
      } else {
        assert t == [s[0]] + more && t[1..] == more;
      }
    }
  }

  /** The cell `cell` is a written form of `field`. */
  predicate Writes(cell: string, field: string) {
    (cell == field && PlainField(field)) || cell == Quoted(field)
  }

  lemma {:induction false} FieldReadsBack(cell: string, field: string, rest: string)
    requires Writes(cell, field) && (rest == "" || rest[0] == ',' || rest[0] == '\n')
    ensures ReadField(cell + rest) == Got(field, rest)
  {
    if cell == Quoted(field) {
      assert (cell + rest)[1..] == Doubled(field) + "\"" + rest;
      QuotedReadsBack(field, rest);
    } else {
      PlainReadsBack(field, rest);
    }
  }

  lemma {:induction false} LastField(cell: string, field: string, rest: string)
    requires Writes(cell, field)
    ensures ReadRecord(cell + "\n" + rest) == Got([field], rest)
  {
    assert cell + "\n" + rest == cell + ("\n" + rest);
    FieldReadsBack(cell, field, "\n" + rest);
    assert ("\n" + rest)[1..] == rest;
  }

  lemma {:induction false} OneMoreField(cell: string, field: string, more: string, fields: seq<string>, rest: string)
    requires Writes(cell, field) && ReadRecord(more) == Got(fields, rest)
    ensures ReadRecord(cell + "," + more) == Got([field] + fields, rest)
  {
    assert cell + "," + more == cell + ("," + more);
    FieldReadsBack(cell, field, "," + more);
    assert ("," + more)[1..] == more;
  }

  lemma {:induction false} RecordReadsBack(cells: seq<string>, fields: seq<string>, rest: string)
    requires |cells| == |fields| > 0 && forall i | 0 <= i < |cells| :: Writes(cells[i], fields[i])
    ensures ReadRecord(Join(cells) + "\n" + rest) == Got(fields, rest)
    decreases |cells|
  {
    if |cells| == 1 {
      LastField(cells[0], fields[0], rest);
      assert fields == [fields[0]];
    } else {
      RecordReadsBack(cells[1..], fields[1..], rest);
      OneMoreField(cells[0], fields[0], Join(cells[1..]) + "\n" + rest, fields[1..], rest);
      assert Join(cells) + "\n" + rest == cells[0] + "," + (Join(cells[1..]) + "\n" + rest);
      assert fields == [fields[0]] + fields[1..];
    }
  }

  /** The fields a row stands for. */
  function FieldsOf(r: Row): seq<string> {
    [r.id, r.checkName, StatusText(r.status), r.openedAt,
     if r.resolvedAt.Some? then r.resolvedAt.value else "", Decimal(r.noteCount)]
  }

  lemma {:induction false} RowReadsBack(r: Row, rest: string)
    requires Exportable(r)
    ensures ReadRecord(Join(Cells(r)) + "\n" + rest) == Got(FieldsOf(r), rest)
    ensures RowOf(FieldsOf(r)) == Some(r)
  {
    DecimalReadsBack(r.noteCount);
    assert PlainField(StatusText(r.status));
    RecordReadsBack(Cells(r), FieldsOf(r), rest);
  }

  /** The rows of a file without its header. */
  function RowsOf(records: seq<seq<string>>): Option<seq<Row>> {
    if records == [] then Some([])
    else
      var first, others := RowOf(records[0]), RowsOf(records[1..]);
      if first.Some? && others.Some? then Some([first.value] + others.value) else None
  }

  lemma {:induction false} RowsReadBack(rows: seq<Row>)
    requires forall i | 0 <= i < |rows| :: Exportable(rows[i])
    ensures ReadFile(RowsText(rows)).Some? && RowsOf(ReadFile(RowsText(rows)).value) == Some(rows)
  {
    if rows != [] {
      var rest := RowsText(rows[1..]);
      RowReadsBack(rows[0], rest);
      RowsReadBack(rows[1..]);
      var records := ReadFile(rest).value;
      assert ReadFile(RowsText(rows)) == Some([FieldsOf(rows[0])] + records);
      assert ([FieldsOf(rows[0])] + records)[1..] == records;
      assert [rows[0]] + rows[1..] == rows;
    }
  }

  /** Reading an export gives back its header and exactly its rows, whatever the check names contain. */
  lemma {:induction false} ExportReadsBack(rows: seq<Row>)
    requires forall i | 0 <= i < |rows| :: Exportable(rows[i])
    ensures var file := ReadFile(HEADER + RowsText(rows));
            && file.Some? && |file.value| == |rows| + 1 && file.value[0] == HEADER_FIELDS
            && RowsOf(file.value[1..]) == Some(rows)
  {
    RowsReadBack(rows);
    HeaderReadsBack(RowsText(rows));
    var records := ReadFile(RowsText(rows)).value;
    assert ReadFile(HEADER + RowsText(rows)) == Some([HEADER_FIELDS] + records);
    assert ([HEADER_FIELDS] + records)[1..] == records;
    RowsKeepCount(records);
  }

  lemma {:induction false} RowsKeepCount(records: seq<seq<string>>)
    requires RowsOf(records).Some?
    ensures |RowsOf(records).value| == |records|
  {
    if records != [] {
      RowsKeepCount(records[1..]);
    }
  }

  lemma HeaderIsPlain()
    ensures forall i | 0 <= i < |HEADER_FIELDS| :: PlainField(HEADER_FIELDS[i])
  {
  }

  lemma {:induction false} HeaderReadsBack(rest: string)
    ensures ReadRecord(HEADER + rest) == Got(HEADER_FIELDS, rest)
  {
    HeaderIsPlain();
    RecordReadsBack(HEADER_FIELDS, HEADER_FIELDS, rest);
  }
}
