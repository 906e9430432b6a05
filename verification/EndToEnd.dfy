/** What a user who gets a download link gets: the pieces composed over whole runs. */
module EndToEnd {
  import opened Common
  import opened Csv
  import opened RecordSource
  import opened Storage
  import opened Verification
  import opened Jobs
  import opened Protocol
  import Completion
  import CsvParser
  import DataSafety
  import Decimal
  import SoloSafety

  /** A job that creation admits has a full target over the table in which its rows were counted, even if the table
      changed after the snapshot was read. */
  lemma AdmittedHasTarget(c: Config, t: Table, later: Table)
    requires c.snapshotMaxId == CaptureSnapshotMaxId(t) && c.limit <= CountRecordsWithinSnapshot(later, c.snapshotMaxId)
    ensures DataSafety.HasTarget(c, later)
    ensures later == t ==> (c.limit <= |t| <==> DataSafety.HasTarget(c, t))
  {
    hide FetchRecordBatch, CaptureSnapshotMaxId;
    EnoughRows(later, c.snapshotMaxId, c.limit);
    SnapshotTakesAll(t);
  }

  /** The text read back: the column names, then nine fields for each of `rows`. */
  predicate ReadsAs(file: string, rows: seq<Row>) {
    CsvParser.Parse(file) == [COLUMNS] + CsvParser.AllFields(rows)
  }

  lemma LinkedFileIsThere(c: Config, s: State, events: seq<Event>)
    requires c.Valid() && Init(c, s)
    requires var sh := Run(c, s, events).sh; GetExportDownload(sh.job, sh.reports).Success?
    ensures
      var sh := Run(c, s, events).sh;
      && GetExportDownload(sh.job, sh.reports).value == FinalKey(c.jobId)
      && Final(c, sh).Some?
  {
    hide Run, Init, IsSoundFile, Final, CsvParser.Parse, GetExportDownload;
    Completion.CompletedWasVerified(c, s, events);
  }

  /** A line of the file shows a record of the table, each value under the name of its column. */
  predicate ShowsTableRow(header: seq<string>, line: seq<string>, id: nat, r: Record) {
    && |header| == 9 && |line| == 9
    && CsvParser.Under(header, line, "id") == Decimal.Print(id)
    && CsvParser.Under(header, line, "external_id") == r.externalId
    && CsvParser.Under(header, line, "name") == r.name
    && CsvParser.Under(header, line, "email") == r.email
    && CsvParser.Under(header, line, "category") == (if r.category.Some? then r.category.value else "")
    && CsvParser.Under(header, line, "amount") == (if r.amount.Some? then r.amount.value else "")
    && CsvParser.Under(header, line, "status") == (if r.status.Some? then r.status.value else "")
    && CsvParser.Under(header, line, "created_at") == r.createdAt
    && CsvParser.Under(header, line, "updated_at") == r.updatedAt
  }

  /** The text, read back, shows exactly the records `ids` of the table, in this order, below the nine column names. */
  predicate ShowsTable(t: Table, ids: seq<nat>, lines: seq<seq<string>>) {
    && |lines| == |ids| + 1
    && lines[0] == ["id", "external_id", "name", "email", "category", "amount", "status", "created_at", "updated_at"]
    && forall i :: 0 <= i < |ids| ==> ids[i] in t && ShowsTableRow(lines[0], lines[i + 1], ids[i], t[ids[i]])
  }

  lemma RowShowsRecord(header: seq<string>, line: seq<string>, row: Row, id: nat, r: Record)
    requires CsvParser.ShowsRow(header, line, row) && ShowsRecord(row, id, r)
    ensures ShowsTableRow(header, line, id, r)
  {
    hide CsvParser.Under, Decimal.Print;
  }

  /** The file of a page shows the table's lowest ids within the snapshot. */
  lemma FileShowsTable(t: Table, snapshotMaxId: nat, limit: nat)
    ensures exists ids ::
      && AreLowestIds(t, 0, snapshotMaxId, limit, ids) && |ids| == |FirstRows(t, snapshotMaxId, limit)|
      && ShowsTable(t, ids, CsvParser.Parse(CsvFile(FirstRows(t, snapshotMaxId, limit))))
  {
    hide CsvParser.Parse, CsvFile, FetchRecordBatch, PageIds, AreLowestIds, ShowsTableRow;
    hide CsvParser.ShowsRow, ShowsRecord;
    var rows, ids := FirstRows(t, snapshotMaxId, limit), PageIds(t, 0, snapshotMaxId, limit);
    PageShowsTable(t, 0, snapshotMaxId, limit);
    CsvParser.FileReadByName(rows);
    var lines := CsvParser.Parse(CsvFile(rows));
    forall i | 0 <= i < |ids|
      ensures ids[i] in t && ShowsTableRow(lines[0], lines[i + 1], ids[i], t[ids[i]])
    {
      RowShowsRecord(lines[0], lines[i + 1], rows[i], ids[i], t[ids[i]]);
    }
  }

  /** Over a stable table, with any number of overlapping workers and any faults: a download link is handed out only
      for a file that reads back as the column names and exactly the first `limit` rows of the snapshot by id. */
  lemma DownloadIsTheExport(c: Config, t: Table, size: nat, s: State, events: seq<Event>)
    requires c.Valid() && DataSafety.HasTarget(c, t) && Init(c, s) && DataSafety.IsStable(c, t, s.sh.table)
    requires DataSafety.IsStableRun(c, t, size, events)
    requires var sh := Run(c, s, events).sh; GetExportDownload(sh.job, sh.reports).Success?
    ensures
      var sh := Run(c, s, events).sh;
      var file := Lookup(sh.objects, GetExportDownload(sh.job, sh.reports).value);
      var rows := FirstRows(t, c.snapshotMaxId, c.limit);
      file.Some? && ReadsAs(file.value, rows) && |rows| == c.limit && IdsWithin(rows, 0, c.snapshotMaxId)
    ensures
      var sh := Run(c, s, events).sh;
      var file := Lookup(sh.objects, GetExportDownload(sh.job, sh.reports).value);
      && file.Some?
      && exists ids ::
           && AreLowestIds(t, 0, c.snapshotMaxId, c.limit, ids) && |ids| == c.limit
           && ShowsTable(t, ids, CsvParser.Parse(file.value))
  {
    FileShowsTable(t, c.snapshotMaxId, c.limit);
    hide AreLowestIds, ShowsTable;
    hide Run, Init, FetchRecordBatch, GetExportDownload, CsvFile, DataSafety.IsStable, DataSafety.IsStableRun;
    hide IdsWithin, COLUMNS, CsvParser.Parse;
    LinkedFileIsThere(c, s, events);
    DataSafety.FinalObjectIsTarget(c, t, size, s, events);
    CsvParser.ParseOfFile(FirstRows(t, c.snapshotMaxId, c.limit));
    PageIsOrdered(t, 0, c.snapshotMaxId, c.limit);
  }

  /** Over a table rewritten at will between requests, with attempts that crash anywhere but do not overlap: the file
      behind a download link reads back as the column names and `limit` rows, free of duplicates, ascending by id and
      within the snapshot. */
  lemma DownloadIsOrdered(c: Config, s: State, events: seq<Event>)
    requires c.Valid() && Init(c, s) && SoloSafety.IsSoloRun(c, None, s, events)
    requires var sh := Run(c, s, events).sh; GetExportDownload(sh.job, sh.reports).Success?
    ensures
      var sh := Run(c, s, events).sh;
      var file := Lookup(sh.objects, GetExportDownload(sh.job, sh.reports).value);
      file.Some? && exists rows ::
        ReadsAs(file.value, rows) && |rows| == c.limit && IdsWithin(rows, 0, c.snapshotMaxId)
  {
    hide Run, Init, FetchRecordBatch, GetExportDownload, CsvFile, SoloSafety.IsSoloRun, IdsWithin, COLUMNS;
    hide CsvParser.Parse;
    LinkedFileIsThere(c, s, events);
    SoloSafety.PublishedFileIsOrdered(c, s, events);
    var file := Final(c, Run(c, s, events).sh).value;
    var rows :| file == CsvFile(rows) && |rows| == c.limit && IdsWithin(rows, 0, c.snapshotMaxId);
    CsvParser.ParseOfFile(rows);
    assert ReadsAs(Final(c, Run(c, s, events).sh).value, rows);
  }
}
