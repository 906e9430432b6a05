/** The character-level parser of scripts/auditLiveExport.mjs, and the round trip with the writer. */
module CsvParser {
  import opened Csv

  /** The parser's variables; `field` is the field being read and `row` the row being read. */
  datatype Scanner = Scanner(rows: seq<seq<string>>, row: seq<string>, field: string, inQuotes: bool)

  const START := Scanner([], [], "", false)

  function Finish(s: Scanner): seq<seq<string>> {
    if s.field != "" || s.row != [] then s.rows + [s.row + [s.field]] else s.rows
  }

  /** What the parser makes of the text still ahead of it. */
  function Scan(text: string, s: Scanner): seq<seq<string>> {
    if text == [] then Finish(s)
    else
      var ch := text[0];
      if s.inQuotes then
        if ch == '\"' then
          if |text| > 1 && text[1] == '\"' then Scan(text[2..], s.(field := s.field + QUOTE))
          else Scan(text[1..], s.(inQuotes := false))
        else Scan(text[1..], s.(field := s.field + [ch]))
      else if ch == '\"' then Scan(text[1..], s.(inQuotes := true))
      else if ch == ',' then Scan(text[1..], s.(row := s.row + [s.field], field := ""))
      else if ch == '\n' then Scan(text[1..], Scanner(s.rows + [s.row + [s.field]], [], "", false))
      else if ch != '\r' then Scan(text[1..], s.(field := s.field + [ch]))
      else Scan(text[1..], s)
  }

  function Parse(text: string): seq<seq<string>> {
    Scan(text, START)
  }

  method ParseCsv(text: string) returns (rows: seq<seq<string>>)
    ensures rows == Parse(text)
  {
    rows := [];
    var field, row, inQuotes := "", [], false;
    var i := 0;
    while i < |text|
      invariant 0 <= i <= |text|
      invariant Scan(text[i..], Scanner(rows, row, field, inQuotes)) == Parse(text)
    {
      var ch := text[i];
      ghost var rest := text[i..];
      assert rest[1..] == text[i + 1..];
      if inQuotes {
        if ch == '\"' {
          if i + 1 < |text| && text[i + 1] == '\"' {
            assert rest[2..] == text[i + 2..];
            field := field + QUOTE;
            i := i + 1;
          } else {
            inQuotes := false;
          }
        } else {
          field := field + [ch];
        }
      } else if ch == '\"' {
        inQuotes := true;
      } else if ch == ',' {
        row := row + [field];
        field := "";
      } else if ch == '\n' {
        row := row + [field];
        rows := rows + [row];
        row := [];
        field := "";
      } else if ch != '\r' {
        field := field + [ch];
      }
      i := i + 1;
    }
    if field != "" || row != [] {
      row := row + [field];
      rows := rows + [row];
    }
  }

  // ---- Round trip ----------------------------------------------------------

  lemma {:induction false} ScanPlain(f: string, tail: string, s: Scanner)
    requires !s.inQuotes && !NeedsQuotes(f)
    ensures Scan(f + tail, s) == Scan(tail, s.(field := s.field + f))
  {
    if f == [] {
      assert f + tail == tail;
      assert s.field + f == s.field;
    } else {
      assert !IsSpecial(f[0]);
      assert (f + tail)[1..] == f[1..] + tail;
      assert !NeedsQuotes(f[1..]);
      ScanPlain(f[1..], tail, s.(field := s.field + [f[0]]));
      assert s.field + [f[0]] + f[1..] == s.field + f;
    }
  }

  /** Inside quotes a doubled quote is one quote of the field... */
  lemma ScanPair(rest: string, s: Scanner)
    requires s.inQuotes
    ensures Scan(QUOTE + QUOTE + rest, s) == Scan(rest, s.(field := s.field + QUOTE))
  {
    assert (QUOTE + QUOTE + rest)[2..] == rest;
  }

  /** ...and any other character is itself. */
  lemma ScanInside(ch: char, rest: string, s: Scanner)
    requires s.inQuotes && ch != '\"'
    ensures Scan([ch] + rest, s) == Scan(rest, s.(field := s.field + [ch]))
  {
    assert ([ch] + rest)[1..] == rest;
  }

  lemma ScanClose(tail: string, s: Scanner)
    requires s.inQuotes && (tail != [] ==> tail[0] != '\"')
    ensures Scan(QUOTE + tail, s) == Scan(tail, s.(inQuotes := false))
  {
    assert (QUOTE + tail)[1..] == tail;
  }

  lemma DoubledFirst(f: string, tail: string)
    requires f != []
    ensures DoubleQuotes(f) + QUOTE + tail
      == (if f[0] == '\"' then QUOTE + QUOTE else [f[0]]) + (DoubleQuotes(f[1..]) + QUOTE + tail)
  {
  }

  lemma ScanFirst(f: string, tail: string, s: Scanner)
    requires s.inQuotes && f != []
    ensures Scan(DoubleQuotes(f) + QUOTE + tail, s)
      == Scan(DoubleQuotes(f[1..]) + QUOTE + tail, s.(field := s.field + [f[0]]))
  {
    hide Scan, DoubleQuotes;
    var rest := DoubleQuotes(f[1..]) + QUOTE + tail;
    DoubledFirst(f, tail);
    if f[0] == '\"' {
      ScanPair(rest, s);
      assert QUOTE == [f[0]];
    } else {
      ScanInside(f[0], rest, s);
    }
  }

  lemma Gather(field: string, f: string)
    requires f != []
    ensures field + [f[0]] + f[1..] == field + f
  {
  }

  lemma {:induction false} ScanQuoted(f: string, tail: string, s: Scanner)
    requires s.inQuotes && (tail != [] ==> tail[0] != '\"')
    ensures Scan(DoubleQuotes(f) + QUOTE + tail, s) == Scan(tail, s.(field := s.field + f, inQuotes := false))
  {
    if f == [] {
      hide Scan;
      assert DoubleQuotes(f) + QUOTE + tail == QUOTE + tail;
      assert s.field + f == s.field;
      ScanClose(tail, s);
    } else {
      hide Scan, DoubleQuotes;
      ScanFirst(f, tail, s);
      ScanQuoted(f[1..], tail, s.(field := s.field + [f[0]]));
      Gather(s.field, f);
    }
  }

  lemma ScanOpenQuote(body: string, tail: string, s: Scanner)
    requires !s.inQuotes
    ensures Scan(QUOTE + body + tail, s) == Scan(body + tail, s.(inQuotes := true))
  {
    assert (QUOTE + body + tail)[1..] == body + tail;
  }

  lemma ScanField(f: string, tail: string, s: Scanner)
    requires !s.inQuotes && s.field == "" && (tail != [] ==> tail[0] != '\"')
    ensures Scan(EscapeField(f) + tail, s) == Scan(tail, s.(field := f))
  {
    if NeedsQuotes(f) {
      ScanOpenQuote(DoubleQuotes(f) + QUOTE, tail, s);
      ScanQuoted(f, tail, s.(inQuotes := true));
      assert QUOTE + (DoubleQuotes(f) + QUOTE) == EscapeField(f);
    } else {
      ScanPlain(f, tail, s);
    }
    assert s.field + f == f;
  }

  lemma Regroup(a: string, b: string, tail: string)
    ensures a + "," + b + tail == a + ("," + (b + tail))
  {
  }

  lemma JoinedMore(fields: seq<string>)
    requires |fields| > 1
    ensures Join(EscapeAll(fields), ",") == EscapeField(fields[0]) + "," + Join(EscapeAll(fields[1..]), ",")
  {
    hide EscapeField;
    assert EscapeAll(fields)[1..] == EscapeAll(fields[1..]);
  }

  lemma LineOfMore(fields: seq<string>, tail: string)
    requires |fields| > 1
    ensures Join(EscapeAll(fields), ",") + tail
      == EscapeField(fields[0]) + ("," + (Join(EscapeAll(fields[1..]), ",") + tail))
  {
    hide Join, EscapeAll, EscapeField;
    JoinedMore(fields);
    Regroup(EscapeField(fields[0]), Join(EscapeAll(fields[1..]), ","), tail);
  }

  lemma LineOfOne(fields: seq<string>)
    requires |fields| == 1
    ensures Join(EscapeAll(fields), ",") == EscapeField(fields[0])
  {
  }

  lemma ScanComma(rest: string, s: Scanner)
    requires !s.inQuotes
    ensures Scan("," + rest, s) == Scan(rest, s.(row := s.row + [s.field], field := ""))
  {
    assert ("," + rest)[1..] == rest;
  }

  /** Up to what follows it, a line of escaped fields is read back as those fields; the last one is still open. */
  lemma {:induction false} ScanFields(fields: seq<string>, tail: string, s: Scanner)
    requires fields != [] && !s.inQuotes && s.field == "" && (tail != [] ==> tail[0] != '\"')
    ensures Scan(Join(EscapeAll(fields), ",") + tail, s)
      == Scan(tail, s.(row := s.row + fields[..|fields| - 1], field := fields[|fields| - 1]))
  {
    hide Scan, Join, EscapeField;
    if |fields| == 1 {
      LineOfOne(fields);
      ScanField(fields[0], tail, s);
      assert s.row + fields[..0] == s.row;
    } else {
      var rest := Join(EscapeAll(fields[1..]), ",") + tail;
      LineOfMore(fields, tail);
      ScanField(fields[0], "," + rest, s);
      ScanComma(rest, s.(field := fields[0]));
      ScanFields(fields[1..], tail, s.(row := s.row + [fields[0]], field := ""));
      assert s.row + [fields[0]] + fields[1..][..|fields| - 2] == s.row + fields[..|fields| - 1];
    }
  }

  lemma LineFeedFirst(text: string, s: Scanner)
    requires text != "" && text[0] == '\n' && !s.inQuotes
    ensures Scan(text, s) == Scan(text[1..], Scanner(s.rows + [s.row + [s.field]], [], "", false))
  {
  }

  lemma CarriageReturnFirst(text: string, s: Scanner)
    requires text != "" && text[0] == '\r'
    ensures Scan(text, s) == Scan(text[1..], if s.inQuotes then s.(field := s.field + [text[0]]) else s)
  {
  }

  lemma ScanLineFeed(rest: string, s: Scanner)
    requires !s.inQuotes
    ensures Scan("\n" + rest, s) == Scan(rest, Scanner(s.rows + [s.row + [s.field]], [], "", false))
    ensures Scan("\r\n" + rest, s) == Scan("\n" + rest, s)
  {
    hide Scan;
    LineFeedFirst("\n" + rest, s);
    assert ("\n" + rest)[1..] == rest;
    CarriageReturnFirst("\r\n" + rest, s);
    assert ("\r\n" + rest)[1..] == "\n" + rest;
  }

  predicate IsLineEnd(s: string) {
    s == "\n" || s == "\r\n"
  }

  /** One line of escaped fields is read back as one row of those fields, whichever way it ends. */
  lemma ScanLine(fields: seq<string>, end: string, rest: string, s: Scanner)
    requires fields != [] && !s.inQuotes && s.field == "" && IsLineEnd(end)
    ensures Scan(Join(EscapeAll(fields), ",") + end + rest, s)
         == Scan(rest, Scanner(s.rows + [s.row + fields], [], "", false))
  {
    hide Scan, Join, EscapeAll;
    var s' := s.(row := s.row + fields[..|fields| - 1], field := fields[|fields| - 1]);
    assert Join(EscapeAll(fields), ",") + end + rest == Join(EscapeAll(fields), ",") + (end + rest);
    ScanFields(fields, end + rest, s);
    ScanLineFeed(rest, s');
    assert s'.row + [s'.field] == s.row + fields;
  }

  // ---- Any text of lines ------------------------------------------------------------------

  /** Lines of escaped fields, each ended by `end`. */
  function Written(lines: seq<seq<string>>, end: string): string {
    if lines == [] then "" else Join(EscapeAll(lines[0]), ",") + end + Written(lines[1..], end)
  }

  lemma {:induction false} ScanWritten(lines: seq<seq<string>>, end: string, rest: string, parsed: seq<seq<string>>)
    requires IsLineEnd(end) && forall i :: 0 <= i < |lines| ==> lines[i] != []
    ensures Scan(Written(lines, end) + rest, Scanner(parsed, [], "", false))
      == Scan(rest, Scanner(parsed + lines, [], "", false))
  {
    hide Scan, Join, EscapeAll;
    if lines == [] {
      assert Written(lines, end) + rest == rest;
      assert parsed + lines == parsed;
    } else {
      var line, more := Join(EscapeAll(lines[0]), ","), Written(lines[1..], end);
      assert Written(lines, end) + rest == line + end + (more + rest);
      ScanLine(lines[0], end, more + rest, Scanner(parsed, [], "", false));
      assert [] + lines[0] == lines[0];
      ScanWritten(lines[1..], end, rest, parsed + [lines[0]]);
      assert parsed + [lines[0]] + lines[1..] == parsed + lines;
    }
  }

  /** What ends the text: a line that is not terminated counts, unless it is a single empty field. */
  lemma ScanLast(last: seq<string>, parsed: seq<seq<string>>)
    requires last != []
    ensures Scan(Join(EscapeAll(last), ","), Scanner(parsed, [], "", false))
      == if last == [""] then parsed else parsed + [last]
  {
    var s := Scanner(parsed, [], "", false);
    var s' := s.(row := last[..|last| - 1], field := last[|last| - 1]);
    assert Join(EscapeAll(last), ",") + "" == Join(EscapeAll(last), ",");
    ScanFields(last, "", s);
    assert s.row + last[..|last| - 1] == s'.row;
    assert s'.row + [s'.field] == last;
    assert s'.row == [] <==> |last| == 1;
  }

  /** The parser reads back any lines of any fields, with either line end, and whether or not the last line has one.
      Outside quotes a carriage return before a line feed is no part of a field. */
  lemma ParseOfWritten(lines: seq<seq<string>>, end: string, last: seq<string>)
    requires IsLineEnd(end) && last != [] && forall i :: 0 <= i < |lines| ==> lines[i] != []
    ensures Parse(Written(lines, end)) == lines
    ensures Parse(Written(lines, end) + Join(EscapeAll(last), ",")) == if last == [""] then lines else lines + [last]
  {
    hide Join, EscapeAll, Written;
    assert Written(lines, end) + "" == Written(lines, end);
    ScanWritten(lines, end, "", []);
    ScanWritten(lines, end, Join(EscapeAll(last), ","), []);
    assert [] + lines == lines;
    ScanLast(last, lines);
  }

  /** Which carriage returns are dropped: those outside quotes, wherever they stand. */
  lemma CarriageReturnOutside(rest: string, s: Scanner)
    ensures Scan("\r" + rest, s) == Scan(rest, if s.inQuotes then s.(field := s.field + "\r") else s)
  {
    hide Scan;
    CarriageReturnFirst("\r" + rest, s);
    assert ("\r" + rest)[1..] == rest && ['\r'] == "\r";
  }

  function AllFields(rows: seq<Row>): (r: seq<seq<string>>)
    ensures |r| == |rows|
    ensures forall i :: 0 <= i < |rows| ==> r[i] == rows[i].Fields()
  {
    if rows == [] then [] else [rows[0].Fields()] + AllFields(rows[1..])
  }

  lemma ScanRow(row: Row, rest: string, parsed: seq<seq<string>>)
    ensures Scan(SerializeRow(row) + "\n" + rest, Scanner(parsed, [], "", false))
         == Scan(rest, Scanner(parsed + [row.Fields()], [], "", false))
  {
    ScanLine(row.Fields(), "\n", rest, Scanner(parsed, [], "", false));
    assert [] + row.Fields() == row.Fields();
  }

  lemma {:induction false} ScanChunk(rows: seq<Row>, parsed: seq<seq<string>>)
    ensures Scan(SerializeChunk(rows), Scanner(parsed, [], "", false)) == parsed + AllFields(rows)
  {
    if rows == [] {
      assert parsed + AllFields(rows) == parsed;
    } else {
      ChunkOfFirstRow(rows);
      ScanRow(rows[0], SerializeChunk(rows[1..]), parsed);
      ScanChunk(rows[1..], parsed + [rows[0].Fields()]);
      Shift(parsed, rows[0].Fields(), AllFields(rows[1..]));
    }
  }

  lemma Shift(a: seq<seq<string>>, b: seq<string>, c: seq<seq<string>>)
    ensures a + [b] + c == a + ([b] + c)
  {
  }

  lemma {:induction false} EscapeAllOfPlain(fields: seq<string>)
    requires forall i :: 0 <= i < |fields| ==> !NeedsQuotes(fields[i])
    ensures EscapeAll(fields) == fields
  {
    if fields != [] {
      EscapeAllOfPlain(fields[1..]);
    }
  }

  lemma ParseWithHeader(names: seq<string>, rows: seq<Row>)
    requires names != [] && forall i :: 0 <= i < |names| ==> !NeedsQuotes(names[i])
    ensures Parse(FileWithHeader(names, rows)) == [names] + AllFields(rows)
  {
    EscapeAllOfPlain(names);
    ScanLine(names, "\n", SerializeChunk(rows), START);
    assert [] + names == names && [] + [names] == [names];
    ScanChunk(rows, [names]);
  }

  lemma ColumnNeedsNoQuotes(k: nat)
    requires k < |COLUMNS|
    ensures !NeedsQuotes(COLUMNS[k])
  {
  }

  /** Parsing a written file gives back the column names and then every row's nine fields,
      whatever quotes, commas, carriage returns and line feeds the fields hold. */
  lemma ParseOfFile(rows: seq<Row>)
    ensures Parse(CsvFile(rows)) == [COLUMNS] + AllFields(rows)
  {
    forall k | 0 <= k < |COLUMNS|
      ensures !NeedsQuotes(COLUMNS[k])
    {
      ColumnNeedsNoQuotes(k);
    }
    ParseWithHeader(COLUMNS, rows);
  }

  // ---- Columns by name --------------------------------------------------------------------

  /** The text that stands in `line` where `header` has the column `name`. */
  function Under(header: seq<string>, line: seq<string>, name: string): string {
    if header == [] || line == [] then ""
    else if header[0] == name then line[0]
    else Under(header[1..], line[1..], name)
  }

  lemma {:induction false} UnderAt(header: seq<string>, line: seq<string>, name: string, k: nat)
    requires k < |header| && k < |line| && header[k] == name && forall j :: 0 <= j < k ==> header[j] != name
    ensures Under(header, line, name) == line[k]
  {
    if k > 0 {
      UnderAt(header[1..], line[1..], name, k - 1);
    }
  }

  /** The line shows the row, each value under the column of its name. */
  predicate ShowsRow(header: seq<string>, line: seq<string>, row: Row) {
    && |header| == 9 && |line| == 9
    && Under(header, line, "id") == row.id
    && Under(header, line, "external_id") == row.externalId
    && Under(header, line, "name") == row.name
    && Under(header, line, "email") == row.email
    && Under(header, line, "category") == row.category
    && Under(header, line, "amount") == row.amount
    && Under(header, line, "status") == row.status
    && Under(header, line, "created_at") == row.createdAt
    && Under(header, line, "updated_at") == row.updatedAt
  }

  lemma FieldsShowRow(row: Row)
    ensures ShowsRow(COLUMNS, row.Fields(), row)
  {
    hide Under;
    var line := row.Fields();
    UnderAt(COLUMNS, line, "id", 0);
    UnderAt(COLUMNS, line, "external_id", 1);
    UnderAt(COLUMNS, line, "name", 2);
    UnderAt(COLUMNS, line, "email", 3);
    UnderAt(COLUMNS, line, "category", 4);
    UnderAt(COLUMNS, line, "amount", 5);
    UnderAt(COLUMNS, line, "status", 6);
    UnderAt(COLUMNS, line, "created_at", 7);
    UnderAt(COLUMNS, line, "updated_at", 8);
  }

  /** A file read back: a header of the nine names in the source's order, and below it one line a row that shows the
      row's values each under its own name. */
  lemma FileReadByName(rows: seq<Row>)
    ensures
      var lines := Parse(CsvFile(rows));
      && |lines| == |rows| + 1
      && lines[0] == ["id", "external_id", "name", "email", "category", "amount", "status", "created_at", "updated_at"]
      && forall i :: 0 <= i < |rows| ==> ShowsRow(lines[0], lines[i + 1], rows[i])
  {
    hide Parse, CsvFile, ShowsRow, Row.Fields;
    ParseOfFile(rows);
    forall i | 0 <= i < |rows|
      ensures ShowsRow(COLUMNS, Parse(CsvFile(rows))[i + 1], rows[i])
    {
      assert Parse(CsvFile(rows))[i + 1] == rows[i].Fields();
      FieldsShowRow(rows[i]);
    }
  }

  lemma RowFromFields(a: seq<Row>, b: seq<Row>, i: nat)
    requires AllFields(a) == AllFields(b) && i < |a| && i < |b|
    ensures a[i] == b[i]
  {
    assert AllFields(a)[i] == a[i].Fields() && AllFields(b)[i] == b[i].Fields();
    hide AllFields;
    FieldsInjective(a[i], b[i]);
  }

  lemma AllFieldsInjective(a: seq<Row>, b: seq<Row>)
    requires AllFields(a) == AllFields(b)
    ensures a == b
  {
    assert |AllFields(a)| == |a| && |AllFields(b)| == |b|;
    hide AllFields;
    forall i | 0 <= i < |a|
      ensures a[i] == b[i]
    {
      RowFromFields(a, b, i);
    }
  }

  /** Different rows never share their bytes. */
  lemma SerializeChunkInjective(a: seq<Row>, b: seq<Row>)
    requires SerializeChunk(a) == SerializeChunk(b)
    ensures a == b
  {
    hide Scan, SerializeChunk, AllFields;
    ScanChunk(a, []);
    ScanChunk(b, []);
    assert AllFields(a) == [] + AllFields(a) == [] + AllFields(b) == AllFields(b);
    AllFieldsInjective(a, b);
  }

  lemma FieldsInjective(a: Row, b: Row)
    requires a.Fields() == b.Fields()
    ensures a == b
  {
    assert forall i :: 0 <= i < 9 ==> a.Fields()[i] == b.Fields()[i];
    assert a.Fields()[0] == b.Fields()[0] && a.Fields()[1] == b.Fields()[1] && a.Fields()[2] == b.Fields()[2];
    assert a.Fields()[3] == b.Fields()[3] && a.Fields()[4] == b.Fields()[4] && a.Fields()[5] == b.Fields()[5];
    assert a.Fields()[6] == b.Fields()[6] && a.Fields()[7] == b.Fields()[7] && a.Fields()[8] == b.Fields()[8];
  }
}
