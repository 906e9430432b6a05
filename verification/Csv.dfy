/** The CSV writer of server/src/utils/csv.ts. */
module Csv {

  /** One record as it is written: nine text fields. */
  datatype Row = Row(
    id: string,
    externalId: string,
    name: string,
    email: string,
    category: string,
    amount: string,
    status: string,
    createdAt: string,
    updatedAt: string)
  {
    function Fields(): seq<string> {
      [id, externalId, name, email, category, amount, status, createdAt, updatedAt]
    }
  }

  const COLUMNS: seq<string> :=
    ["id", "external_id", "name", "email", "category", "amount", "status", "created_at", "updated_at"]

  const WIDTH: nat := 9

  const QUOTE := "\""

  predicate IsSpecial(ch: char) {
    ch == '\"' || ch == ',' || ch == '\r' || ch == '\n'
  }

  predicate NeedsQuotes(s: string) {
    exists i :: 0 <= i < |s| && IsSpecial(s[i])
  }

  function DoubleQuotes(s: string): string {
    if s == [] then []
    else (if s[0] == '\"' then QUOTE + QUOTE else [s[0]]) + DoubleQuotes(s[1..])
  }

  function EscapeField(s: string): string {
    if NeedsQuotes(s) then QUOTE + DoubleQuotes(s) + QUOTE else s
  }

  function EscapeAll(fields: seq<string>): (r: seq<string>)
    ensures |r| == |fields|
  {
    if fields == [] then [] else [EscapeField(fields[0])] + EscapeAll(fields[1..])
  }

  function Join(parts: seq<string>, separator: string): string {
    if parts == [] then ""
    else if |parts| == 1 then parts[0]
    else parts[0] + separator + Join(parts[1..], separator)
  }

  function SerializeRow(row: Row): string {
    Join(EscapeAll(row.Fields()), ",")
  }

  function SerializeAll(rows: seq<Row>): (r: seq<string>)
    ensures |r| == |rows|
  {
    if rows == [] then [] else [SerializeRow(rows[0])] + SerializeAll(rows[1..])
  }

  function SerializeChunk(rows: seq<Row>): string {
    if rows == [] then "" else Join(SerializeAll(rows), "\n") + "\n"
  }

  function HeaderLine(names: seq<string>): string {
    Join(names, ",") + "\n"
  }

  function CsvHeader(): string {
    HeaderLine(COLUMNS)
  }

  function FileWithHeader(names: seq<string>, rows: seq<Row>): string {
    HeaderLine(names) + SerializeChunk(rows)
  }

  /** Header and data rows: what the assembled file should hold. */
  function CsvFile(rows: seq<Row>): string {
    FileWithHeader(COLUMNS, rows)
  }

  lemma FileParts(rows: seq<Row>)
    ensures CsvFile(rows) == CsvHeader() + SerializeChunk(rows)
  {
    hide COLUMNS, SerializeChunk, HeaderLine;
  }

  lemma Associative(a: string, b: string, c: string)
    ensures (a + b) + c == a + (b + c)
  {
  }

  lemma ChunkOfFirstRow(rows: seq<Row>)
    requires rows != []
    ensures SerializeChunk(rows) == SerializeRow(rows[0]) + "\n" + SerializeChunk(rows[1..])
  {
    if |rows| > 1 {
      assert SerializeAll(rows)[1..] == SerializeAll(rows[1..]);
    }
  }

  /** Chunks concatenate: cutting the rows into batches does not show in the bytes. */
  lemma {:induction false} ChunksConcatenate(a: seq<Row>, b: seq<Row>)
    ensures SerializeChunk(a + b) == SerializeChunk(a) + SerializeChunk(b)
  {
    if a == [] {
      assert a + b == b;
    } else {
      var line := SerializeRow(a[0]) + "\n";
      assert SerializeChunk(a + b) == line + SerializeChunk(a[1..] + b) by {
        ChunkOfFirstRow(a + b);
        assert (a + b)[1..] == a[1..] + b;
      }
      assert SerializeChunk(a) == line + SerializeChunk(a[1..]) by {
        ChunkOfFirstRow(a);
      }
      ChunksConcatenate(a[1..], b);
      Associative(line, SerializeChunk(a[1..]), SerializeChunk(b));
    }
  }

  // ---- Counting characters -------------------------------------------------

  function Count(ch: char, s: string): nat {
    if s == [] then 0 else (if s[0] == ch then 1 else 0) + Count(ch, s[1..])
  }

  function CountInFields(ch: char, fields: seq<string>): nat {
    if fields == [] then 0 else Count(ch, fields[0]) + CountInFields(ch, fields[1..])
  }

  function CountInRows(ch: char, rows: seq<Row>): nat {
    if rows == [] then 0 else CountInFields(ch, rows[0].Fields()) + CountInRows(ch, rows[1..])
  }

  lemma {:induction false} CountOfConcat(ch: char, a: string, b: string)
    ensures Count(ch, a + b) == Count(ch, a) + Count(ch, b)
  {
    if a == [] {
      assert a + b == b;
    } else {
      assert (a + b)[1..] == a[1..] + b;
      CountOfConcat(ch, a[1..], b);
    }
  }

  lemma {:induction false} CountOfPlain(ch: char, s: string)
    requires forall i :: 0 <= i < |s| ==> s[i] != ch
    ensures Count(ch, s) == 0
  {
    if s != [] {
      CountOfPlain(ch, s[1..]);
    }
  }

  // Characters other than quotes and commas: those of the fields, and the line ends.

  lemma {:induction false} CountOfDoubled(ch: char, s: string)
    ensures Count(ch, DoubleQuotes(s)) == if ch == '\"' then 2 * Count(ch, s) else Count(ch, s)
  {
    if s != [] {
      CountOfDoubled(ch, s[1..]);
      var head := if s[0] == '\"' then QUOTE + QUOTE else [s[0]];
      CountOfConcat(ch, head, DoubleQuotes(s[1..]));
    }
  }

  lemma CountOfQuoted(ch: char, s: string)
    ensures Count(ch, QUOTE + s + QUOTE) == Count(ch, s) + if ch == '\"' then 2 else 0
  {
    CountOfConcat(ch, QUOTE + s, QUOTE);
    CountOfConcat(ch, QUOTE, s);
  }

  lemma CountOfField(ch: char, s: string)
    ensures ch != '\"' ==> Count(ch, EscapeField(s)) == Count(ch, s)
    ensures Count('\"', EscapeField(s)) % 2 == 0
  {
    if NeedsQuotes(s) {
      CountOfDoubled(ch, s);
      CountOfDoubled('\"', s);
      CountOfQuoted(ch, DoubleQuotes(s));
      CountOfQuoted('\"', DoubleQuotes(s));
    } else {
      CountOfPlain('\"', s);
    }
  }

  lemma {:induction false} CountOfJoined(ch: char, fields: seq<string>)
    ensures ch != '\"' && ch != ',' ==> Count(ch, Join(EscapeAll(fields), ",")) == CountInFields(ch, fields)
    ensures Count('\"', Join(EscapeAll(fields), ",")) % 2 == 0
  {
    hide EscapeField;
    if fields != [] {
      CountOfField(ch, fields[0]);
      if |fields| > 1 {
        var parts := EscapeAll(fields);
        assert parts[1..] == EscapeAll(fields[1..]);
        CountOfJoined(ch, fields[1..]);
        CountOfConcat(ch, parts[0] + ",", Join(parts[1..], ","));
        CountOfConcat(ch, parts[0], ",");
        CountOfConcat('\"', parts[0] + ",", Join(parts[1..], ","));
        CountOfConcat('\"', parts[0], ",");
      }
    }
  }

  lemma {:induction false} CountOfChunk(ch: char, rows: seq<Row>)
    ensures ch != '\"' && ch != ',' ==>
      Count(ch, SerializeChunk(rows)) == CountInRows(ch, rows) + if ch == '\n' then |rows| else 0
    ensures Count('\"', SerializeChunk(rows)) % 2 == 0
  {
    hide EscapeAll, Join;
    if rows != [] {
      var line := SerializeRow(rows[0]);
      ChunkOfFirstRow(rows);
      hide SerializeChunk;
      CountOfChunk(ch, rows[1..]);
      CountOfJoined(ch, rows[0].Fields());
      CountOfConcat(ch, line + "\n", SerializeChunk(rows[1..]));
      CountOfConcat(ch, line, "\n");
      CountOfConcat('\"', line + "\n", SerializeChunk(rows[1..]));
      CountOfConcat('\"', line, "\n");
    }
  }

  lemma {:induction false} NoneInJoin(ch: char, parts: seq<string>)
    requires ch != ','
    requires forall p :: p in parts ==> ch !in p
    ensures ch !in Join(parts, ",")
  {
    if |parts| > 1 {
      NoneInJoin(ch, parts[1..]);
    }
  }

  lemma CountOfHeader(ch: char, names: seq<string>)
    requires ch != ',' && forall p :: p in names ==> ch !in p
    ensures Count(ch, HeaderLine(names)) == if ch == '\n' then 1 else 0
  {
    var line := Join(names, ",");
    NoneInJoin(ch, names);
    CountOfPlain(ch, line);
    CountOfConcat(ch, line, "\n");
  }

  lemma ColumnsArePlain(k: nat)
    requires k < |COLUMNS|
    ensures '\n' !in COLUMNS[k] && '\r' !in COLUMNS[k] && '\"' !in COLUMNS[k]
  {
  }

  lemma CountOfCsvHeader(ch: char)
    requires ch == '\n' || ch == '\r' || ch == '\"'
    ensures Count(ch, HeaderLine(COLUMNS)) == if ch == '\n' then 1 else 0
  {
    forall p | p in COLUMNS
      ensures ch !in p
    {
      var k :| 0 <= k < |COLUMNS| && COLUMNS[k] == p;
      ColumnsArePlain(k);
    }
    CountOfHeader(ch, COLUMNS);
  }

  lemma JoinMore(first: string, rest: seq<string>)
    requires rest != []
    ensures Join([first] + rest, ",") == first + "," + Join(rest, ",")
  {
    assert ([first] + rest)[1..] == rest;
  }

  lemma JoinOne(last: string)
    ensures Join([last], ",") == last
  {
  }

  lemma ColumnsInOrder()
    ensures COLUMNS == ["id"] + (["external_id"] + (["name"] + (["email"] + (["category"] + (["amount"] + (["status"]
      + (["created_at"] + ["updated_at"])))))))
  {
  }

  /** The header line, spelled out. */
  lemma HeaderForm()
    ensures CsvHeader() == "id" + "," + ("external_id" + "," + ("name" + "," + ("email" + "," + ("category" + ","
      + ("amount" + "," + ("status" + "," + ("created_at" + "," + "updated_at"))))))) + "\n"
  {
    hide Join;
    ColumnsInOrder();
    hide COLUMNS;
    JoinOne("updated_at");
    JoinMore("created_at", ["updated_at"]);
    var c7 := ["created_at"] + ["updated_at"];
    JoinMore("status", c7);
    var c6 := ["status"] + c7;
    JoinMore("amount", c6);
    var c5 := ["amount"] + c6;
    JoinMore("category", c5);
    var c4 := ["category"] + c5;
    JoinMore("email", c4);
    var c3 := ["email"] + c4;
    JoinMore("name", c3);
    var c2 := ["name"] + c3;
    JoinMore("external_id", c2);
    JoinMore("id", ["external_id"] + c2);
  }

  lemma CountOfFile(names: seq<string>, rows: seq<Row>, ch: char)
    ensures Count(ch, FileWithHeader(names, rows)) == Count(ch, HeaderLine(names)) + Count(ch, SerializeChunk(rows))
  {
    CountOfConcat(ch, HeaderLine(names), SerializeChunk(rows));
  }

  /** Physical lines: one for the header, one a row, and one more for every line feed inside a field; a carriage
      return only where a field has one. */
  lemma LinesOfFile(rows: seq<Row>)
    ensures Count('\n', CsvFile(rows)) == 1 + |rows| + CountInRows('\n', rows)
    ensures Count('\r', CsvFile(rows)) == CountInRows('\r', rows)
  {
    hide COLUMNS, HeaderLine, SerializeChunk, Count, CountInRows;
    CountOfCsvHeader('\n');
    CountOfCsvHeader('\r');
    CountOfChunk('\n', rows);
    CountOfChunk('\r', rows);
    CountOfFile(COLUMNS, rows, '\n');
    CountOfFile(COLUMNS, rows, '\r');
  }

  /** Quotes always come in pairs. */
  lemma QuotesOfFile(rows: seq<Row>)
    ensures Count('\"', CsvFile(rows)) % 2 == 0
  {
    hide COLUMNS, HeaderLine, SerializeChunk, Count, CountInRows;
    CountOfCsvHeader('\"');
    CountOfChunk('\"', rows);
    CountOfFile(COLUMNS, rows, '\"');
  }

  /** When a field is quoted: exactly when it holds a quote, a comma, a carriage return or a line feed. Otherwise it is
      written as it is. Quoted, it is two characters longer, and one more for each of its quotes. */
  lemma FieldForm(s: string)
    ensures (forall ch :: ch in s ==> ch != '\"' && ch != ',' && ch != '\r' && ch != '\n') <==> EscapeField(s) == s
    ensures EscapeField(s) != s ==>
      && |EscapeField(s)| == |s| + Count('\"', s) + 2
      && EscapeField(s)[0] == '\"' && EscapeField(s)[|EscapeField(s)| - 1] == '\"'
  {
    LengthOfDoubled(s);
    if NeedsQuotes(s) {
      var i :| 0 <= i < |s| && IsSpecial(s[i]);
      assert s[i] in s;
    } else {
      forall ch | ch in s
        ensures !IsSpecial(ch)
      {
        var i :| 0 <= i < |s| && s[i] == ch;
      }
    }
  }

  lemma {:induction false} LengthOfDoubled(s: string)
    ensures |DoubleQuotes(s)| == |s| + Count('\"', s)
  {
    if s != [] {
      LengthOfDoubled(s[1..]);
    }
  }
}
