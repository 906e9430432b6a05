/** Keyset paging over the records table (server/src/services/recordSource.service.ts). */
module RecordSource {
  import opened Common
  import opened Csv
  import Decimal

  /** One table row without its id; timestamps and amounts are given as the text they print to. */
  datatype Record = Record(
    externalId: string,
    name: string,
    email: string,
    category: Option<string>,
    amount: Option<string>,
    status: Option<string>,
    createdAt: string,
    updatedAt: string)

  /** The table by id. Ids are unique and, being a BIGSERIAL, positive. */
  type Table = t: map<nat, Record> | 0 !in t witness map[]

  function OrEmpty(value: Option<string>): string {
    if value.Some? then value.value else ""
  }

  function NormaliseRecord(id: nat, r: Record): Row {
    Row(Decimal.Print(id), r.externalId, r.name, r.email, OrEmpty(r.category), OrEmpty(r.amount),
        OrEmpty(r.status), r.createdAt, r.updatedAt)
  }

  /** The number a written row carries as its id. */
  function RowId(row: Row): nat {
    Decimal.Value(row.id)
  }

  // ---- ORDER BY id ---------------------------------------------------------

  predicate StrictlyAscending(s: seq<int>) {
    forall i, j :: 0 <= i < j < |s| ==> s[i] < s[j]
  }

  lemma LeastExists(ids: set<nat>)
    requires ids != {}
    ensures exists m :: m in ids && forall x :: x in ids ==> m <= x
  {
    var y :| y in ids;
    var m := 0;
    while m !in ids
      invariant m <= y
      invariant forall x :: x in ids ==> m <= x
      decreases y - m
    {
      m := m + 1;
    }
  }

  function Least(ids: set<nat>): (m: nat)
    requires ids != {}
    ensures m in ids && forall x :: x in ids ==> m <= x
  {
    LeastExists(ids);
    var m :| m in ids && forall x :: x in ids ==> m <= x;
    m
  }

  ghost predicate Lists(s: seq<nat>, ids: set<nat>) {
    StrictlyAscending(s) && forall x :: x in s <==> x in ids
  }

  lemma ConsLists(m: nat, rest: seq<nat>, ids: set<nat>)
    requires m in ids && (forall x :: x in ids ==> m <= x) && Lists(rest, ids - {m})
    ensures Lists([m] + rest, ids)
  {
    var s := [m] + rest;
    forall i, j | 0 <= i < j < |s|
      ensures s[i] < s[j]
    {
      assert s[j] == rest[j - 1];
      assert rest[j - 1] in rest;
      if i > 0 {
        assert s[i] == rest[i - 1];
      }
    }
    forall x
      ensures x in s <==> x in ids
    {
      assert x in s <==> x == m || x in rest;
    }
  }

  function Ascending(ids: set<nat>): (r: seq<nat>)
    ensures Lists(r, ids)
    ensures |r| == |ids|
    decreases |ids|
  {
    if ids == {} then []
    else
      var m := Least(ids);
      var rest := Ascending(ids - {m});
      ConsLists(m, rest, ids);
      [m] + rest
  }

  lemma TailLists(s: seq<nat>, ids: set<nat>)
    requires s != [] && Lists(s, ids)
    ensures s[0] in ids && Lists(s[1..], ids - {s[0]})
  {
    assert s == [s[0]] + s[1..];
    forall x
      ensures x in s[1..] <==> x in ids - {s[0]}
    {
      assert x in ids <==> x == s[0] || x in s[1..];
    }
  }

  lemma NoneEmpty(a: seq<nat>, b: seq<nat>, ids: set<nat>)
    requires Lists(a, ids) && Lists(b, ids) && (a != [] || b != [])
    ensures a != [] && b != []
  {
    var x := if a != [] then a[0] else b[0];
    assert x in ids;
    assert x in a && x in b;
  }

  lemma SameFirst(a: seq<nat>, b: seq<nat>, ids: set<nat>)
    requires a != [] && b != [] && Lists(a, ids) && Lists(b, ids)
    ensures a[0] == b[0]
  {
    assert a[0] in b && b[0] in a;
  }

  /** There is only one way to list a set in strictly ascending order. */
  lemma {:induction false} ListingUnique(a: seq<nat>, b: seq<nat>, ids: set<nat>)
    requires Lists(a, ids) && Lists(b, ids)
    ensures a == b
  {
    if a != [] || b != [] {
      NoneEmpty(a, b, ids);
      SameFirst(a, b, ids);
      TailLists(a, ids);
      TailLists(b, ids);
      ListingUnique(a[1..], b[1..], ids - {a[0]});
      assert a == [a[0]] + a[1..] && b == [b[0]] + b[1..];
    }
  }

  function Above(ids: set<nat>, x: nat): set<nat> {
    set y | y in ids && y > x
  }

  lemma DropLists(s: seq<nat>, ids: set<nat>, k: nat)
    requires 0 < k <= |s| && Lists(s, ids)
    ensures Lists(s[k..], Above(ids, s[k - 1]))
  {
    forall x
      ensures x in s[k..] <==> x in Above(ids, s[k - 1])
    {
      if x in Above(ids, s[k - 1]) {
        var i :| 0 <= i < |s| && s[i] == x;
        assert i >= k;
        assert s[k..][i - k] == x;
      }
      if x in s[k..] {
        var i :| 0 <= i < |s[k..]| && s[k..][i] == x;
        assert s[k + i] == x;
      }
    }
  }

  /** The ids after the first `k` are the ids above the k-th. */
  lemma AscendingDrop(ids: set<nat>, k: nat)
    requires 0 < k <= |ids|
    ensures Ascending(ids)[k..] == Ascending(Above(ids, Ascending(ids)[k - 1]))
  {
    var s := Ascending(ids);
    DropLists(s, ids, k);
    ListingUnique(s[k..], Ascending(Above(ids, s[k - 1])), Above(ids, s[k - 1]));
  }

  lemma SplitAt<T>(s: seq<T>, k: nat)
    requires k <= |s|
    ensures s == s[..k] + s[k..]
  {
  }

  lemma TakeIsPrefix<T>(s: seq<T>, n: nat)
    ensures |Take(s, n)| <= |s| && Take(s, n) == s[..|Take(s, n)|]
  {
  }

  lemma AscendingSplit(ids: set<nat>, k: nat)
    requires 0 < k <= |ids|
    ensures Ascending(ids) == Ascending(ids)[..k] + Ascending(Above(ids, Ascending(ids)[k - 1]))
  {
    AscendingDrop(ids, k);
    SplitAt(Ascending(ids), k);
  }

  lemma AscendingExtend(ids: set<nat>, x: nat)
    requires forall y :: y in ids ==> y < x
    ensures Ascending(ids + {x}) == Ascending(ids) + [x]
  {
    var r := Ascending(ids);
    forall i | 0 <= i < |r|
      ensures r[i] < x
    {
      assert r[i] in r;
    }
    assert StrictlyAscending(r + [x]);
    ListingUnique(r + [x], Ascending(ids + {x}), ids + {x});
  }

  // ---- Pages ---------------------------------------------------------------

  /** The ids the query selects: above the cursor and within the snapshot. */
  function Eligible(t: Table, afterId: nat, snapshotMaxId: nat): set<nat> {
    set id | id in t && afterId < id <= snapshotMaxId
  }

  function Take<T>(s: seq<T>, n: nat): seq<T> {
    if n < |s| then s[..n] else s
  }

  function Normalise(t: Table, ids: seq<nat>): (rows: seq<Row>)
    requires forall id :: id in ids ==> id in t
    ensures |rows| == |ids|
    ensures forall i :: 0 <= i < |ids| ==> rows[i] == NormaliseRecord(ids[i], t[ids[i]])
  {
    seq(|ids|, i requires 0 <= i < |ids| => NormaliseRecord(ids[i], t[ids[i]]))
  }

  function PageIds(t: Table, afterId: nat, snapshotMaxId: nat, limit: nat): (ids: seq<nat>)
    ensures forall id :: id in ids ==> id in t
  {
    var ids := Take(Ascending(Eligible(t, afterId, snapshotMaxId)), limit);
    assert forall id :: id in ids ==> id in Eligible(t, afterId, snapshotMaxId);
    ids
  }

  function FetchRecordBatch(t: Table, afterId: nat, snapshotMaxId: nat, limit: nat): seq<Row> {
    Normalise(t, PageIds(t, afterId, snapshotMaxId, limit))
  }

  /** Where the next page starts: the last id of this one. */
  function Cursor(afterId: nat, rows: seq<Row>): nat {
    if rows == [] then afterId else RowId(rows[|rows| - 1])
  }

  /** The ids of `rows` ascend strictly and lie above `afterId` and within the snapshot. */
  predicate IdsWithin(rows: seq<Row>, afterId: nat, snapshotMaxId: nat) {
    && (forall i, j :: 0 <= i < j < |rows| ==> RowId(rows[i]) < RowId(rows[j]))
    && (forall i :: 0 <= i < |rows| ==> afterId < RowId(rows[i]) <= snapshotMaxId)
    && (forall i :: 0 <= i < |rows| ==> rows[i].id == Decimal.Print(RowId(rows[i])))
  }

  lemma PageIdsOfRows(t: Table, afterId: nat, snapshotMaxId: nat, limit: nat)
    ensures
      var ids := PageIds(t, afterId, snapshotMaxId, limit);
      var rows := FetchRecordBatch(t, afterId, snapshotMaxId, limit);
      && |rows| == |ids| <= limit
      && forall i :: 0 <= i < |ids| ==> RowId(rows[i]) == ids[i]
  {
    var ids := PageIds(t, afterId, snapshotMaxId, limit);
    forall i | 0 <= i < |ids|
      ensures RowId(FetchRecordBatch(t, afterId, snapshotMaxId, limit)[i]) == ids[i]
    {
      Decimal.ValueOfPrint(ids[i]);
    }
  }

  /** A page ascends strictly, starts above its cursor and never leaves the snapshot. */
  lemma PageIsOrdered(t: Table, afterId: nat, snapshotMaxId: nat, limit: nat)
    ensures
      var rows := FetchRecordBatch(t, afterId, snapshotMaxId, limit);
      |rows| <= limit && IdsWithin(rows, afterId, snapshotMaxId)
  {
    PageIdsOfRows(t, afterId, snapshotMaxId, limit);
    var all := Ascending(Eligible(t, afterId, snapshotMaxId));
    forall i | 0 <= i < |PageIds(t, afterId, snapshotMaxId, limit)|
      ensures afterId < PageIds(t, afterId, snapshotMaxId, limit)[i] <= snapshotMaxId
    {
      assert all[i] in Eligible(t, afterId, snapshotMaxId);
    }
  }

  lemma CursorOfPage(t: Table, afterId: nat, snapshotMaxId: nat, a: nat)
    ensures
      var ids := PageIds(t, afterId, snapshotMaxId, a);
      Cursor(afterId, FetchRecordBatch(t, afterId, snapshotMaxId, a)) == if ids == [] then afterId else ids[|ids| - 1]
  {
    PageIdsOfRows(t, afterId, snapshotMaxId, a);
  }

  lemma EligibleAbove(t: Table, afterId: nat, snapshotMaxId: nat, cursor: nat)
    requires afterId <= cursor
    ensures Eligible(t, cursor, snapshotMaxId) == Above(Eligible(t, afterId, snapshotMaxId), cursor)
  {
  }

  /** Cutting an ascending listing leaves, after the cut, what lies above the last id before it. */
  lemma AscendingCut(ids: set<nat>, a: nat)
    ensures
      var first := Take(Ascending(ids), a);
      var rest := if first == [] then ids else Above(ids, first[|first| - 1]);
      Ascending(ids) == first + Ascending(rest)
  {
    var first := Take(Ascending(ids), a);
    if first == [] {
      assert first + Ascending(ids) == Ascending(ids);
    } else {
      TakeIsPrefix(Ascending(ids), a);
      AscendingSplit(ids, |first|);
    }
  }

  /** What is left after a page is what lies above its last id. */
  lemma AfterPage(t: Table, afterId: nat, snapshotMaxId: nat, a: nat)
    ensures
      var ids := PageIds(t, afterId, snapshotMaxId, a);
      var cursor := if ids == [] then afterId else ids[|ids| - 1];
      Ascending(Eligible(t, afterId, snapshotMaxId)) == ids + Ascending(Eligible(t, cursor, snapshotMaxId))
  {
    var eligible := Eligible(t, afterId, snapshotMaxId);
    var ids := PageIds(t, afterId, snapshotMaxId, a);
    AscendingCut(eligible, a);
    if ids != [] {
      assert ids[|ids| - 1] in Ascending(eligible);
      EligibleAbove(t, afterId, snapshotMaxId, ids[|ids| - 1]);
    }
  }

  lemma TakeInTwo<T>(all: seq<T>, rest: seq<T>, a: nat, b: nat)
    requires all == Take(all, a) + rest
    ensures Take(all, a + b) == Take(all, a) + Take(rest, b)
  {
  }

  lemma NormaliseConcat(t: Table, a: seq<nat>, b: seq<nat>)
    requires forall id :: id in a + b ==> id in t
    ensures (forall id :: id in a ==> id in t) && (forall id :: id in b ==> id in t)
    ensures Normalise(t, a + b) == Normalise(t, a) + Normalise(t, b)
  {
    forall i | 0 <= i < |a|
      ensures a[i] in t
    {
      assert (a + b)[i] in a + b;
    }
    forall i | 0 <= i < |b|
      ensures b[i] in t
    {
      assert (a + b)[|a| + i] in a + b;
    }
  }

  /** Keyset paging composes: a page of `a + b` rows is the page of `a` followed by the page of `b`
      that starts at the first page's last id. */
  lemma PagesCompose(t: Table, afterId: nat, snapshotMaxId: nat, a: nat, b: nat)
    ensures
      var first := FetchRecordBatch(t, afterId, snapshotMaxId, a);
      FetchRecordBatch(t, afterId, snapshotMaxId, a + b)
        == first + FetchRecordBatch(t, Cursor(afterId, first), snapshotMaxId, b)
  {
    var cursor := Cursor(afterId, FetchRecordBatch(t, afterId, snapshotMaxId, a));
    CursorOfPage(t, afterId, snapshotMaxId, a);
    AfterPage(t, afterId, snapshotMaxId, a);
    TakeInTwo(Ascending(Eligible(t, afterId, snapshotMaxId)), Ascending(Eligible(t, cursor, snapshotMaxId)), a, b);
    NormaliseConcat(t, PageIds(t, afterId, snapshotMaxId, a), PageIds(t, cursor, snapshotMaxId, b));
  }

  /** The table's rows up to the snapshot are the same in both. */
  predicate AgreeUpTo(snapshotMaxId: nat, t: Table, u: Table) {
    && (forall id :: id in t && id <= snapshotMaxId ==> id in u && u[id] == t[id])
    && (forall id :: id in u && id <= snapshotMaxId ==> id in t)
  }

  /** What is inserted, changed or deleted above the snapshot does not show in any page. */
  lemma PagesOfAgreeingTables(t: Table, u: Table, afterId: nat, snapshotMaxId: nat, limit: nat)
    requires AgreeUpTo(snapshotMaxId, t, u)
    ensures FetchRecordBatch(t, afterId, snapshotMaxId, limit) == FetchRecordBatch(u, afterId, snapshotMaxId, limit)
  {
    assert Eligible(t, afterId, snapshotMaxId) == Eligible(u, afterId, snapshotMaxId);
    var ids := PageIds(t, afterId, snapshotMaxId, limit);
    forall i | 0 <= i < |ids|
      ensures ids[i] in u && u[ids[i]] == t[ids[i]]
    {
      assert Ascending(Eligible(t, afterId, snapshotMaxId))[i] in Eligible(t, afterId, snapshotMaxId);
    }
  }

  // ---- What a page is, column by column -----------------------------------------------

  /** The written row shows the table's record: its id in decimal and every column under its own name, with nothing
      where the table has none. */
  predicate ShowsRecord(row: Row, id: nat, r: Record) {
    && row.id == Decimal.Print(id)
    && row.externalId == r.externalId && row.name == r.name && row.email == r.email
    && (r.category.Some? ==> row.category == r.category.value) && (r.category.None? ==> row.category == "")
    && (r.amount.Some? ==> row.amount == r.amount.value) && (r.amount.None? ==> row.amount == "")
    && (r.status.Some? ==> row.status == r.status.value) && (r.status.None? ==> row.status == "")
    && row.createdAt == r.createdAt && row.updatedAt == r.updatedAt
  }

  /** `ids` are the lowest ids of the table above the cursor and within the snapshot: `limit` of them, or all. */
  predicate AreLowestIds(t: Table, afterId: nat, snapshotMaxId: nat, limit: nat, ids: seq<nat>) {
    && |ids| <= limit && StrictlyAscending(ids)
    && (forall i :: 0 <= i < |ids| ==> ids[i] in t && afterId < ids[i] <= snapshotMaxId)
    && (forall id :: id in t && afterId < id <= snapshotMaxId ==>
         id in ids || (|ids| == limit && forall i :: 0 <= i < |ids| ==> ids[i] < id))
  }

  predicate AreRowsOf(t: Table, ids: seq<nat>, rows: seq<Row>) {
    |rows| == |ids| && forall i :: 0 <= i < |ids| ==> ids[i] in t && ShowsRecord(rows[i], ids[i], t[ids[i]])
  }

  lemma PrefixIsLowest(t: Table, afterId: nat, snapshotMaxId: nat, limit: nat, all: seq<nat>, n: nat)
    requires Lists(all, Eligible(t, afterId, snapshotMaxId)) && n <= |all| && n <= limit && (n == limit || n == |all|)
    ensures AreLowestIds(t, afterId, snapshotMaxId, limit, all[..n])
  {
    var ids := all[..n];
    forall i | 0 <= i < n
      ensures ids[i] in t && afterId < ids[i] <= snapshotMaxId
    {
      assert all[i] in all;
    }
    forall id | id in t && afterId < id <= snapshotMaxId
      ensures id in ids || (n == limit && forall i :: 0 <= i < n ==> ids[i] < id)
    {
      assert id in Eligible(t, afterId, snapshotMaxId);
      var k :| 0 <= k < |all| && all[k] == id;
      assert k < n ==> ids[k] == id;
    }
  }

  lemma LowestIdsOfPage(t: Table, afterId: nat, snapshotMaxId: nat, limit: nat)
    ensures AreLowestIds(t, afterId, snapshotMaxId, limit, PageIds(t, afterId, snapshotMaxId, limit))
  {
    hide AreLowestIds, Eligible, Lists, Ascending;
    var all := Ascending(Eligible(t, afterId, snapshotMaxId));
    TakeIsPrefix(all, limit);
    PrefixIsLowest(t, afterId, snapshotMaxId, limit, all, |Take(all, limit)|);
  }

  /** The rows of a page are the table's lowest ids after the cursor, each with its record's own values. */
  lemma PageShowsTable(t: Table, afterId: nat, snapshotMaxId: nat, limit: nat)
    ensures
      var ids := PageIds(t, afterId, snapshotMaxId, limit);
      && AreLowestIds(t, afterId, snapshotMaxId, limit, ids)
      && AreRowsOf(t, ids, FetchRecordBatch(t, afterId, snapshotMaxId, limit))
  {
    hide Eligible, Take, Decimal.Print, AreLowestIds;
    LowestIdsOfPage(t, afterId, snapshotMaxId, limit);
  }

  /** Two lists of lowest ids that agree so far: the next of the one is no greater than the next of the other. */
  lemma LowestFirst(t: Table, afterId: nat, snapshotMaxId: nat, limit: nat, a: seq<nat>, b: seq<nat>, n: nat)
    requires AreLowestIds(t, afterId, snapshotMaxId, limit, a) && AreLowestIds(t, afterId, snapshotMaxId, limit, b)
    requires n < |a| && n < |b| && forall i :: 0 <= i < n ==> a[i] == b[i]
    ensures a[n] <= b[n]
  {
    if b[n] in a {
      var k :| 0 <= k < |a| && a[k] == b[n];
    }
  }

  lemma {:induction false} LowestIdsPrefix(
    t: Table, afterId: nat, snapshotMaxId: nat, limit: nat, a: seq<nat>, b: seq<nat>, n: nat)
    requires AreLowestIds(t, afterId, snapshotMaxId, limit, a) && AreLowestIds(t, afterId, snapshotMaxId, limit, b)
    requires n <= |a| && n <= |b|
    ensures forall i :: 0 <= i < n ==> a[i] == b[i]
  {
    hide AreLowestIds;
    if n > 0 {
      LowestIdsPrefix(t, afterId, snapshotMaxId, limit, a, b, n - 1);
      LowestFirst(t, afterId, snapshotMaxId, limit, a, b, n - 1);
      LowestFirst(t, afterId, snapshotMaxId, limit, b, a, n - 1);
    }
  }

  lemma NotInPrefix(s: seq<nat>, n: nat)
    requires StrictlyAscending(s) && n <= |s|
    ensures n < |s| ==> s[n] !in s[..n]
  {
  }

  /** A list of lowest ids that begins another one is all of it. */
  lemma LowestIdsEnd(t: Table, afterId: nat, snapshotMaxId: nat, limit: nat, a: seq<nat>, b: seq<nat>)
    requires AreLowestIds(t, afterId, snapshotMaxId, limit, a) && AreLowestIds(t, afterId, snapshotMaxId, limit, b)
    requires |a| <= |b| && forall i :: 0 <= i < |a| ==> a[i] == b[i]
    ensures |a| == |b|
  {
    assert a == b[..|a|];
    NotInPrefix(b, |a|);
  }

  lemma LowestIdsAreOne(t: Table, afterId: nat, snapshotMaxId: nat, limit: nat, a: seq<nat>, b: seq<nat>)
    requires AreLowestIds(t, afterId, snapshotMaxId, limit, a) && AreLowestIds(t, afterId, snapshotMaxId, limit, b)
    requires |a| <= |b|
    ensures a == b
  {
    hide AreLowestIds;
    LowestIdsPrefix(t, afterId, snapshotMaxId, limit, a, b, |a|);
    LowestIdsEnd(t, afterId, snapshotMaxId, limit, a, b);
  }

  lemma ShownRecordIsOne(a: Row, b: Row, id: nat, r: Record)
    requires ShowsRecord(a, id, r) && ShowsRecord(b, id, r)
    ensures a == b
  {
  }

  /** That is all there is to a page: rows are the page exactly when they show the table's lowest ids. */
  lemma PageIsWhatTheTableHolds(t: Table, afterId: nat, snapshotMaxId: nat, limit: nat, rows: seq<Row>)
    ensures rows == FetchRecordBatch(t, afterId, snapshotMaxId, limit)
       <==> exists ids :: AreLowestIds(t, afterId, snapshotMaxId, limit, ids) && AreRowsOf(t, ids, rows)
  {
    hide FetchRecordBatch, AreLowestIds, ShowsRecord, PageIds;
    var page, own := FetchRecordBatch(t, afterId, snapshotMaxId, limit), PageIds(t, afterId, snapshotMaxId, limit);
    PageShowsTable(t, afterId, snapshotMaxId, limit);
    if ids :| AreLowestIds(t, afterId, snapshotMaxId, limit, ids) && AreRowsOf(t, ids, rows) {
      if |ids| <= |own| {
        LowestIdsAreOne(t, afterId, snapshotMaxId, limit, ids, own);
      } else {
        LowestIdsAreOne(t, afterId, snapshotMaxId, limit, own, ids);
      }
      forall i | 0 <= i < |rows|
        ensures rows[i] == page[i]
      {
        ShownRecordIsOne(rows[i], page[i], ids[i], t[ids[i]]);
      }
    }
  }

  // ---- The snapshot --------------------------------------------------------

  function CaptureSnapshotMaxId(t: Table): (max: nat)
    ensures forall id :: id in t ==> id <= max
    ensures t != map[] ==> max in t
    ensures t == map[] ==> max == 0
  {
    var ids := Ascending(t.Keys);
    if ids == [] then
      assert |t.Keys| == 0;
      0
    else
      assert forall id :: id in t ==> id in ids;
      assert ids[|ids| - 1] in ids;
      ids[|ids| - 1]
  }

  function CountRecordsWithinSnapshot(t: Table, snapshotMaxId: nat): (n: nat)
    ensures n == |set id | id in t && id <= snapshotMaxId|
  {
    assert Eligible(t, 0, snapshotMaxId) == set id | id in t && id <= snapshotMaxId;
    |Eligible(t, 0, snapshotMaxId)|
  }

  /** The export's target: the first `limit` rows by id within the snapshot, read in one go. */
  function FirstRows(t: Table, snapshotMaxId: nat, limit: nat): seq<Row> {
    FetchRecordBatch(t, 0, snapshotMaxId, limit)
  }

  /** Counting enough rows is exactly having a full target. */
  lemma EnoughRows(t: Table, snapshotMaxId: nat, limit: nat)
    ensures CountRecordsWithinSnapshot(t, snapshotMaxId) >= limit <==> |FirstRows(t, snapshotMaxId, limit)| == limit
  {
  }

  /** The snapshot taken from a table takes in the whole table. */
  lemma SnapshotTakesAll(t: Table)
    ensures CountRecordsWithinSnapshot(t, CaptureSnapshotMaxId(t)) == |t|
  {
    assert Eligible(t, 0, CaptureSnapshotMaxId(t)) == t.Keys;
  }
}
