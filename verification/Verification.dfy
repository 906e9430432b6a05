/** The streaming audit of a finished file (server/src/services/exportVerification.service.ts).
    `readId` is what JavaScript's BigInt makes of a text: a number, or nothing when it throws. */
module Verification {
  import opened Common
  import opened Csv
  import opened RecordSource

  type IdReader = string -> Option<int>
  type Line = seq<string>

  datatype Problem =
    | BadHeader
    | WrongRowCount
    | WrongUniqueCount
    | HasDuplicates
    | OutsideSnapshot
    | NotAscending
    | Malformed
    | EmptyFile

  datatype VerificationResult = VerificationResult(
    expectedRows: nat,
    actualRows: nat,
    uniqueRows: nat,
    duplicates: nat,
    minId: Option<int>,
    maxId: Option<int>,
    outOfSnapshot: nat,
    headerValid: bool,
    strictlyAscending: bool,
    malformedRows: nat,
    fileBytes: nat,
    problems: seq<Problem>)
  {
    predicate Passed() {
      problems == []
    }
  }

  // ---- What the counters should be ------------------------------------------

  type FullLine = line: Line | |line| == WIDTH witness seq(WIDTH, i => "")

  /** The lines below the header that have one field for every column. */
  function DataRows(lines: seq<Line>): (r: seq<FullLine>)
    ensures |r| <= if |lines| == 0 then 0 else |lines| - 1
  {
    if |lines| <= 1 then []
    else
      var last := lines[|lines| - 1];
      DataRows(lines[..|lines| - 1]) + (if |last| == WIDTH then [last] else [])
  }

  function IdTexts(rows: seq<FullLine>): (r: set<string>)
    ensures |r| <= |rows|
  {
    if rows == [] then {} else IdTexts(rows[..|rows| - 1]) + {rows[|rows| - 1][0]}
  }

  /** The ids that can be read, in file order. */
  function Ids(readId: IdReader, rows: seq<FullLine>): (r: seq<int>)
    ensures |r| <= |rows|
  {
    if rows == [] then []
    else
      var id := readId(rows[|rows| - 1][0]);
      Ids(readId, rows[..|rows| - 1]) + (if id.Some? then [id.value] else [])
  }

  function CountAbove(ids: seq<int>, bound: int): nat {
    if ids == [] then 0
    else CountAbove(ids[..|ids| - 1], bound) + (if ids[|ids| - 1] > bound then 1 else 0)
  }

  predicate Ascends(ids: seq<int>) {
    |ids| <= 1 || (Ascends(ids[..|ids| - 1]) && ids[|ids| - 2] < ids[|ids| - 1])
  }

  function Minimum(ids: seq<int>): Option<int> {
    if ids == [] then None
    else
      var last, m := ids[|ids| - 1], Minimum(ids[..|ids| - 1]);
      if m.None? || last < m.value then Some(last) else m
  }

  function Maximum(ids: seq<int>): Option<int> {
    if ids == [] then None
    else
      var last, m := ids[|ids| - 1], Maximum(ids[..|ids| - 1]);
      if m.None? || last > m.value then Some(last) else m
  }

  /** The result before it is judged: each number by what it counts. */
  function Counters(readId: IdReader, lines: seq<Line>, fileBytes: nat, expectedRows: nat, snapshotMaxId: int)
    : VerificationResult
  {
    var rows := DataRows(lines);
    var ids := Ids(readId, rows);
    var unique := |IdTexts(rows)|;
    VerificationResult(
      expectedRows, |rows|, unique, |rows| - unique, Minimum(ids), Maximum(ids), CountAbove(ids, snapshotMaxId),
      |lines| > 0 && lines[0] == COLUMNS, Ascends(ids),
      if |lines| == 0 then 0 else |lines| - 1 - |ids|, fileBytes, [])
  }

  /** The result of an audit. */
  function Audit(readId: IdReader, lines: seq<Line>, fileBytes: nat, expectedRows: nat, snapshotMaxId: int)
    : VerificationResult
  {
    Judge(Counters(readId, lines, fileBytes, expectedRows, snapshotMaxId))
  }

  function Push(problems: seq<Problem>, bad: bool, problem: Problem): seq<Problem> {
    if bad then problems + [problem] else problems
  }

  /** The list of complaints, in the order they are pushed. */
  function Judge(r: VerificationResult): VerificationResult {
    var p1 := Push([], !r.headerValid, BadHeader);
    var p2 := Push(p1, r.actualRows != r.expectedRows, WrongRowCount);
    var p3 := Push(p2, r.uniqueRows != r.expectedRows, WrongUniqueCount);
    var p4 := Push(p3, r.duplicates != 0, HasDuplicates);
    var p5 := Push(p4, r.outOfSnapshot != 0, OutsideSnapshot);
    var p6 := Push(p5, !r.strictlyAscending, NotAscending);
    var p7 := Push(p6, r.malformedRows != 0, Malformed);
    r.(problems := Push(p7, r.fileBytes <= 0, EmptyFile))
  }

  /** The pass's variables about the ids read so far. */
  datatype Seen = Seen(previousId: Option<int>, minId: Option<int>, maxId: Option<int>, strictlyAscending: bool) {
    function See(id: int): Seen {
      Seen(
        Some(id),
        if minId.None? || id < minId.value then Some(id) else minId,
        if maxId.None? || id > maxId.value then Some(id) else maxId,
        strictlyAscending && !(previousId.Some? && id <= previousId.value))
    }
  }

  function SeenIn(ids: seq<int>): Seen {
    Seen(if ids == [] then None else Some(ids[|ids| - 1]), Minimum(ids), Maximum(ids), Ascends(ids))
  }

  // ---- The single pass -------------------------------------------------------

  /** A line with another number of fields than the first one: the streaming parser gives up on such a file. */
  predicate IsRagged(lines: seq<Line>) {
    exists i :: 0 <= i < |lines| && |lines[i]| != |lines[0]|
  }

  datatype AuditError = RaggedLine(index: nat)

  /** The header has every column name in its place: the comparison is made column by column. */
  method IsHeader(line: Line) returns (valid: bool)
    ensures valid <==> line == COLUMNS
  {
    if |line| != |COLUMNS| {
      return false;
    }
    for i := 0 to |COLUMNS|
      invariant line[..i] == COLUMNS[..i]
    {
      if line[i] != COLUMNS[i] {
        return false;
      }
    }
    return true;
  }

  /** The read loop: one pass over the lines, keeping a set of id texts and a handful of numbers. */
  method ReadLines(readId: IdReader, lines: seq<Line>, fileBytes: nat, expectedRows: nat, snapshotMaxId: int)
    returns (r: Result<VerificationResult, AuditError>)
    ensures r.Failure? <==> IsRagged(lines)
    ensures r.Success? ==> r.value == Counters(readId, lines, fileBytes, expectedRows, snapshotMaxId)
  {
    hide COLUMNS, DataRows, Ids, IdTexts, CountAbove, SeenIn;
    NothingRead(readId, lines, snapshotMaxId);
    var seenIds: set<string> := {};
    var actualRows, duplicates, outOfSnapshot, malformedRows := 0, 0, 0, 0;
    var headerValid, seen := false, Seen(None, None, None, true);
    ghost var rows: seq<FullLine>, ids: seq<int> := [], [];
    ghost var headed := |lines| > 0 && lines[0] == COLUMNS;
    for rowIndex := 0 to |lines|
      invariant forall i :: 0 <= i < rowIndex ==> |lines[i]| == |lines[0]|
      invariant rows == DataRows(lines[..rowIndex]) && ids == Ids(readId, rows)
      invariant headerValid <==> rowIndex > 0 && headed
      invariant actualRows == |rows| && seenIds == IdTexts(rows) && duplicates == |rows| - |seenIds|
      invariant seen == SeenIn(ids)
      invariant outOfSnapshot == CountAbove(ids, snapshotMaxId)
      invariant malformedRows == if rowIndex == 0 then 0 else rowIndex - 1 - |ids|
    {
      var row := lines[rowIndex];
      if |row| != |lines[0]| {
        return Failure(RaggedLine(rowIndex));
      }
      if rowIndex == 0 {
        headerValid := IsHeader(row);
      } else {
        NextLine(lines, rowIndex);
        if |row| != WIDTH {
          malformedRows := malformedRows + 1;
        } else {
          NextRow(readId, rows, row);
          actualRows := actualRows + 1;
          var idText := row[0];
          if idText in seenIds {
            duplicates := duplicates + 1;
          } else {
            seenIds := seenIds + {idText};
          }
          rows := rows + [row];
          var id := readId(idText);
          if id.None? {
            malformedRows := malformedRows + 1;
          } else {
            NextId(ids, id.value, snapshotMaxId);
            ids := ids + [id.value];
            outOfSnapshot := outOfSnapshot + if id.value > snapshotMaxId then 1 else 0;
            seen := seen.See(id.value);
          }
        }
      }
    }
    assert lines[..|lines|] == lines;
    SeenInIs(ids);
    return Success(VerificationResult(expectedRows, actualRows, |seenIds|, duplicates, seen.minId, seen.maxId,
      outOfSnapshot, headerValid, seen.strictlyAscending, malformedRows, fileBytes, []));
  }

  method VerifyExportFile(readId: IdReader, lines: seq<Line>, fileBytes: nat, expectedRows: nat, snapshotMaxId: int)
    returns (r: Result<VerificationResult, AuditError>)
    ensures r.Failure? <==> IsRagged(lines)
    ensures r.Success? ==> r.value == Audit(readId, lines, fileBytes, expectedRows, snapshotMaxId)
    ensures r.Success? ==> IsTrueResult(readId, lines, fileBytes, expectedRows, snapshotMaxId, r.value)
  {
    hide Counters, IsRagged, IsTrueResult;
    AuditMeans(readId, lines, fileBytes, expectedRows, snapshotMaxId);
    var read := ReadLines(readId, lines, fileBytes, expectedRows, snapshotMaxId);
    if read.Failure? {
      return Failure(read.error);
    }
    var result := read.value;
    CountersKeep(readId, lines, fileBytes, expectedRows, snapshotMaxId);
    var problems := Push([], !result.headerValid, BadHeader);
    problems := Push(problems, result.actualRows != expectedRows, WrongRowCount);
    problems := Push(problems, result.uniqueRows != expectedRows, WrongUniqueCount);
    problems := Push(problems, result.duplicates != 0, HasDuplicates);
    problems := Push(problems, result.outOfSnapshot != 0, OutsideSnapshot);
    problems := Push(problems, !result.strictlyAscending, NotAscending);
    problems := Push(problems, result.malformedRows != 0, Malformed);
    problems := Push(problems, fileBytes <= 0, EmptyFile);
    return Success(result.(problems := problems));
  }

  lemma CountersKeep(readId: IdReader, lines: seq<Line>, fileBytes: nat, expectedRows: nat, snapshotMaxId: int)
    ensures
      var r := Counters(readId, lines, fileBytes, expectedRows, snapshotMaxId);
      r.expectedRows == expectedRows && r.fileBytes == fileBytes
  {
  }

  lemma NothingRead(readId: IdReader, lines: seq<Line>, bound: int)
    ensures DataRows(lines[..0]) == [] && (|lines| > 0 ==> DataRows(lines[..1]) == [])
    ensures Ids(readId, []) == [] && IdTexts([]) == {} && CountAbove([], bound) == 0
    ensures SeenIn([]) == Seen(None, None, None, true)
  {
  }

  lemma SeenInIs(ids: seq<int>)
    ensures SeenIn(ids).minId == Minimum(ids) && SeenIn(ids).maxId == Maximum(ids)
    ensures SeenIn(ids).strictlyAscending == Ascends(ids)
  {
    hide Minimum, Maximum, Ascends;
  }

  lemma NextLine(lines: seq<Line>, k: nat)
    requires 0 < k < |lines|
    ensures DataRows(lines[..k + 1])
         == DataRows(lines[..k]) + (if |lines[k]| == WIDTH then [lines[k]] else [])
  {
    assert lines[..k + 1][..k] == lines[..k];
  }

  lemma NextRow(readId: IdReader, rows: seq<FullLine>, row: FullLine)
    ensures IdTexts(rows + [row]) == IdTexts(rows) + {row[0]}
    ensures Ids(readId, rows + [row])
         == Ids(readId, rows) + (if readId(row[0]).Some? then [readId(row[0]).value] else [])
  {
    assert (rows + [row])[..|rows|] == rows;
  }

  lemma NextId(ids: seq<int>, id: int, bound: int)
    ensures CountAbove(ids + [id], bound) == CountAbove(ids, bound) + (if id > bound then 1 else 0)
    ensures SeenIn(ids + [id]) == SeenIn(ids).See(id)
  {
    assert (ids + [id])[..|ids|] == ids;
  }

  // ---- What a pass means -------------------------------------------------------

  /** Every line below the header has nine fields and an id that can be read. */
  predicate AllReadable(readId: IdReader, lines: seq<Line>) {
    forall i :: 1 <= i < |lines| ==> |lines[i]| == WIDTH && readId(lines[i][0]).Some?
  }

  /** The ids of the lines below the header. */
  function LineIds(readId: IdReader, lines: seq<Line>): (ids: seq<int>)
    requires |lines| > 0 && AllReadable(readId, lines)
    ensures |ids| == |lines| - 1
  {
    seq(|lines| - 1, i requires 0 <= i < |lines| - 1 => readId(lines[i + 1][0]).value)
  }

  /** The file is what an export of `expectedRows` rows should be. */
  predicate IsSoundFile(readId: IdReader, lines: seq<Line>, fileBytes: nat, expectedRows: nat, snapshotMaxId: int) {
    && |lines| == expectedRows + 1
    && lines[0] == COLUMNS
    && AllReadable(readId, lines)
    && StrictlyAscending(LineIds(readId, lines))
    && (forall i :: 0 <= i < expectedRows ==> LineIds(readId, lines)[i] <= snapshotMaxId)
    && fileBytes > 0
  }

  lemma {:induction false} FullDataRows(lines: seq<Line>)
    requires |lines| > 0
    ensures |DataRows(lines)| == |lines| - 1 <==> forall i :: 1 <= i < |lines| ==> |lines[i]| == WIDTH
    ensures |DataRows(lines)| == |lines| - 1 ==> DataRows(lines) == lines[1..]
  {
    if |lines| > 1 {
      var init, last := lines[..|lines| - 1], lines[|lines| - 1];
      FullDataRows(init);
      assert lines == init + [last];
      assert lines[1..] == init[1..] + [last];
    }
  }

  lemma {:induction false} FullIds(readId: IdReader, rows: seq<FullLine>)
    ensures |Ids(readId, rows)| == |rows| <==> forall i :: 0 <= i < |rows| ==> readId(rows[i][0]).Some?
    ensures |Ids(readId, rows)| == |rows| ==>
      forall i :: 0 <= i < |rows| ==> Ids(readId, rows)[i] == readId(rows[i][0]).value
  {
    if rows != [] {
      var init, last := rows[..|rows| - 1], rows[|rows| - 1];
      FullIds(readId, init);
      assert rows == init + [last];
    }
  }

  /** Nothing is malformed exactly when every line gives an id, and the ids read are then those of all lines. */
  lemma ReadableLines(readId: IdReader, lines: seq<Line>)
    requires |lines| > 0
    ensures |Ids(readId, DataRows(lines))| == |lines| - 1 <==> AllReadable(readId, lines)
    ensures AllReadable(readId, lines) ==>
      DataRows(lines) == lines[1..] && Ids(readId, DataRows(lines)) == LineIds(readId, lines)
  {
    FullDataRows(lines);
    FullIds(readId, DataRows(lines));
    if |DataRows(lines)| == |lines| - 1 {
      assert forall i :: 1 <= i < |lines| ==> lines[i] == DataRows(lines)[i - 1];
    }
  }

  lemma {:induction false} NoneAbove(ids: seq<int>, bound: int)
    ensures CountAbove(ids, bound) == 0 <==> forall i :: 0 <= i < |ids| ==> ids[i] <= bound
  {
    if ids != [] {
      NoneAbove(ids[..|ids| - 1], bound);
    }
  }

  lemma {:induction false} AscendsIff(ids: seq<int>)
    ensures Ascends(ids) <==> StrictlyAscending(ids)
  {
    if |ids| > 1 {
      var init := ids[..|ids| - 1];
      AscendsIff(init);
      if StrictlyAscending(ids) {
        assert forall i :: 0 <= i < |init| ==> init[i] == ids[i];
      }
    }
  }

  lemma {:induction false} TextsOfSmallerIds(readId: IdReader, rows: seq<FullLine>, text: string)
    requires text in IdTexts(rows)
    ensures exists i :: 0 <= i < |rows| && rows[i][0] == text
  {
    if rows[|rows| - 1][0] != text {
      TextsOfSmallerIds(readId, rows[..|rows| - 1], text);
    }
  }

  /** Ids that ascend as numbers cannot repeat as texts. */
  lemma {:induction false} AscendingIdsAreUnique(readId: IdReader, rows: seq<FullLine>)
    requires |Ids(readId, rows)| == |rows| && Ascends(Ids(readId, rows))
    ensures |IdTexts(rows)| == |rows|
  {
    if rows != [] {
      var init, last := rows[..|rows| - 1], rows[|rows| - 1];
      AscendingIdsAreUnique(readId, init);
      FullIds(readId, rows);
      AscendsIff(Ids(readId, rows));
      if last[0] in IdTexts(init) {
        TextsOfSmallerIds(readId, init, last[0]);
      }
    }
  }

  lemma PassedMeansNoComplaint(r: VerificationResult)
    ensures Judge(r).Passed() <==>
      && r.headerValid && r.actualRows == r.expectedRows && r.uniqueRows == r.expectedRows && r.duplicates == 0
      && r.outOfSnapshot == 0 && r.strictlyAscending && r.malformedRows == 0 && r.fileBytes > 0
  {
  }

  /** The audit passes exactly on the sound files. The uniqueness and duplicate checks add nothing:
      they follow from ascending ids. */
  lemma AuditPassesIff(readId: IdReader, lines: seq<Line>, fileBytes: nat, expectedRows: nat, snapshotMaxId: int)
    ensures Audit(readId, lines, fileBytes, expectedRows, snapshotMaxId).Passed()
       <==> IsSoundFile(readId, lines, fileBytes, expectedRows, snapshotMaxId)
  {
    var r := Audit(readId, lines, fileBytes, expectedRows, snapshotMaxId);
    PassedMeansNoComplaint(r);
    if |lines| > 0 {
      ReadableLines(readId, lines);
      if AllReadable(readId, lines) {
        NoneAbove(LineIds(readId, lines), snapshotMaxId);
        AscendsIff(LineIds(readId, lines));
        if r.strictlyAscending {
          AscendingIdsAreUnique(readId, DataRows(lines));
        }
      }
    }
  }

  /** A sound file is no ragged one, so the streaming parser reads it to its end. */
  lemma SoundIsNotRagged(readId: IdReader, lines: seq<Line>, fileBytes: nat, expectedRows: nat, snapshotMaxId: int)
    requires IsSoundFile(readId, lines, fileBytes, expectedRows, snapshotMaxId)
    ensures !IsRagged(lines)
  {
    forall i | 0 <= i < |lines|
      ensures |lines[i]| == WIDTH
    {
      if i == 0 {
        assert |COLUMNS| == WIDTH;
      }
    }
  }

  lemma {:induction false} ExtremesAreTrue(ids: seq<int>)
    ensures Minimum(ids).None? <==> ids == []
    ensures Maximum(ids).None? <==> ids == []
    ensures ids != [] ==>
      && Minimum(ids).value in ids && Maximum(ids).value in ids
      && forall x :: x in ids ==> Minimum(ids).value <= x <= Maximum(ids).value
  {
    if ids != [] {
      ExtremesAreTrue(ids[..|ids| - 1]);
      assert ids == ids[..|ids| - 1] + [ids[|ids| - 1]];
    }
  }

  /** For every file, good or bad: rows split into first sightings and repeats, and the extremes are
      the least and greatest of the ids that could be read. */
  lemma CountersAreTrue(readId: IdReader, lines: seq<Line>, fileBytes: nat, expectedRows: nat, snapshotMaxId: int)
    ensures
      var r := Audit(readId, lines, fileBytes, expectedRows, snapshotMaxId);
      var ids := Ids(readId, DataRows(lines));
      && r.actualRows == r.uniqueRows + r.duplicates
      && (r.minId.None? <==> ids == []) && (r.maxId.None? <==> ids == [])
      && (ids != [] ==>
           && r.minId.value in ids && r.maxId.value in ids
           && forall x :: x in ids ==> r.minId.value <= x <= r.maxId.value)
  {
    ExtremesAreTrue(Ids(readId, DataRows(lines)));
  }

  lemma ExtremesOfAscending(ids: seq<int>)
    requires ids != [] && StrictlyAscending(ids)
    ensures Minimum(ids) == Some(ids[0]) && Maximum(ids) == Some(ids[|ids| - 1])
  {
    ExtremesAreTrue(ids);
    assert ids[0] in ids && ids[|ids| - 1] in ids;
  }

  /** On a pass of a non-empty export the extremes are the ids of the first and the last row. */
  lemma ExtremesOfPassingFile(readId: IdReader, lines: seq<Line>, fileBytes: nat, expectedRows: nat, snapshotMaxId: int)
    requires expectedRows > 0
    requires Audit(readId, lines, fileBytes, expectedRows, snapshotMaxId).Passed()
    ensures |lines| == expectedRows + 1 && AllReadable(readId, lines)
    ensures
      var r := Audit(readId, lines, fileBytes, expectedRows, snapshotMaxId);
      && r.minId == readId(lines[1][0])
      && r.maxId == readId(lines[expectedRows][0])
  {
    AuditPassesIff(readId, lines, fileBytes, expectedRows, snapshotMaxId);
    ReadableLines(readId, lines);
    ExtremesOfAscending(LineIds(readId, lines));
  }

  // ---- What the numbers count, over the lines themselves ------------------------------------

  /** The lines below the header that have nine fields. */
  function DataAt(lines: seq<Line>): set<nat> {
    set i: nat | 1 <= i < |lines| && |lines[i]| == 9
  }

  /** Their different first fields. */
  function TextsAt(lines: seq<Line>): set<string> {
    set i: nat | 1 <= i < |lines| && |lines[i]| == 9 :: lines[i][0]
  }

  /** Those whose first field stands on an earlier one of them. */
  function RepeatsAt(lines: seq<Line>): set<nat> {
    set i: nat | 1 <= i < |lines| && |lines[i]| == 9 &&
      exists j :: 1 <= j < i && |lines[j]| == 9 && lines[j][0] == lines[i][0]
  }

  /** Those whose first field can be read as an id. */
  function ReadAt(readId: IdReader, lines: seq<Line>): set<nat> {
    set i: nat | 1 <= i < |lines| && |lines[i]| == 9 && readId(lines[i][0]).Some?
  }

  /** Those with an id above `bound`. */
  function AboveAt(readId: IdReader, lines: seq<Line>, bound: int): set<nat> {
    set i: nat | 1 <= i < |lines| && |lines[i]| == 9 && readId(lines[i][0]).Some? && readId(lines[i][0]).value > bound
  }

  /** The lines below the header that give no id. */
  function BadAt(readId: IdReader, lines: seq<Line>): set<nat> {
    set i: nat | 1 <= i < |lines| && !(|lines[i]| == 9 && readId(lines[i][0]).Some?)
  }

  function IdAt(readId: IdReader, lines: seq<Line>, i: nat): int
    requires i in ReadAt(readId, lines)
  {
    readId(lines[i][0]).value
  }

  /** A counter for what it counts. */
  predicate CountsRight(readId: IdReader, lines: seq<Line>, snapshotMaxId: int, r: VerificationResult) {
    && r.actualRows == |DataAt(lines)|
    && r.uniqueRows == |TextsAt(lines)|
    && r.duplicates == |RepeatsAt(lines)|
    && r.outOfSnapshot == |AboveAt(readId, lines, snapshotMaxId)|
    && r.malformedRows == |BadAt(readId, lines)|
  }

  ghost predicate OrderRight(readId: IdReader, lines: seq<Line>, r: VerificationResult) {
    && (r.strictlyAscending <==> forall i, j ::
         i in ReadAt(readId, lines) && j in ReadAt(readId, lines) && i < j ==>
           IdAt(readId, lines, i) < IdAt(readId, lines, j))
    && (r.minId.Some? <==> ReadAt(readId, lines) != {}) && (r.maxId.Some? <==> ReadAt(readId, lines) != {})
    && (r.minId.Some? && r.maxId.Some? ==>
         && (forall i :: i in ReadAt(readId, lines) ==> r.minId.value <= IdAt(readId, lines, i) <= r.maxId.value)
         && (exists i :: i in ReadAt(readId, lines) && IdAt(readId, lines, i) == r.minId.value)
         && (exists i :: i in ReadAt(readId, lines) && IdAt(readId, lines, i) == r.maxId.value))
  }

  function Rank(problem: Problem): nat {
    match problem
    case BadHeader => 0
    case WrongRowCount => 1
    case WrongUniqueCount => 2
    case HasDuplicates => 3
    case OutsideSnapshot => 4
    case NotAscending => 5
    case Malformed => 6
    case EmptyFile => 7
  }

  /** Each complaint for its own reason, once, and in the source's order. */
  predicate ComplainsRight(r: VerificationResult) {
    (forall q :: q in r.problems <==> Complaint(r, q)) && InOrder(r.problems)
  }

  lemma DataGrows(lines: seq<Line>)
    requires |lines| > 1
    ensures
      var m, init := |lines| - 1, lines[..|lines| - 1];
      && DataAt(lines) == DataAt(init) + (if |lines[m]| == 9 then {m} else {})
      && m !in DataAt(init)
  {
  }

  lemma TextsGrow(lines: seq<Line>)
    requires |lines| > 1
    ensures
      var m, init := |lines| - 1, lines[..|lines| - 1];
      TextsAt(lines) == TextsAt(init) + (if |lines[m]| == 9 then {lines[m][0]} else {})
  {
    var m, init := |lines| - 1, lines[..|lines| - 1];
    forall text | text in TextsAt(init)
      ensures text in TextsAt(lines)
    {
      var i: nat :| 1 <= i < m && |init[i]| == 9 && init[i][0] == text;
      assert lines[i] == init[i];
    }
  }

  lemma TextStands(lines: seq<Line>, n: nat, text: string)
    requires n <= |lines|
    ensures text in TextsAt(lines[..n]) <==> exists j :: 1 <= j < n && |lines[j]| == 9 && lines[j][0] == text
  {
    var init := lines[..n];
    if text in TextsAt(init) {
      var j: nat :| 1 <= j < n && |init[j]| == 9 && init[j][0] == text;
      assert lines[j] == init[j];
    }
    if exists j :: 1 <= j < n && |lines[j]| == 9 && lines[j][0] == text {
      var j :| 1 <= j < n && |lines[j]| == 9 && lines[j][0] == text;
      assert init[j] == lines[j];
    }
  }

  lemma RepeatStands(lines: seq<Line>, i: nat)
    ensures i in RepeatsAt(lines) <==> 1 <= i < |lines| && |lines[i]| == 9 && lines[i][0] in TextsAt(lines[..i])
  {
    hide TextsAt;
    if 1 <= i < |lines| && |lines[i]| == 9 {
      TextStands(lines, i, lines[i][0]);
    }
  }

  lemma RepeatsGrow(lines: seq<Line>)
    requires |lines| > 1
    ensures
      var m, init := |lines| - 1, lines[..|lines| - 1];
      && RepeatsAt(lines) == RepeatsAt(init) + (if |lines[m]| == 9 && lines[m][0] in TextsAt(init) then {m} else {})
      && m !in RepeatsAt(init)
  {
    hide TextsAt, RepeatsAt;
    var m, init := |lines| - 1, lines[..|lines| - 1];
    RepeatStands(lines, m);
    RepeatStands(init, m);
    forall i: nat | i != m
      ensures i in RepeatsAt(lines) <==> i in RepeatsAt(init)
    {
      RepeatStands(lines, i);
      RepeatStands(init, i);
      assert i < m ==> lines[..i] == init[..i];
    }
  }

  lemma ReadGrows(readId: IdReader, lines: seq<Line>, bound: int)
    requires |lines| > 1
    ensures
      var m, init := |lines| - 1, lines[..|lines| - 1];
      var read := |lines[m]| == 9 && readId(lines[m][0]).Some?;
      && ReadAt(readId, lines) == ReadAt(readId, init) + (if read then {m} else {})
      && BadAt(readId, lines) == BadAt(readId, init) + (if read then {} else {m})
      && AboveAt(readId, lines, bound)
           == AboveAt(readId, init, bound) + (if read && readId(lines[m][0]).value > bound then {m} else {})
      && m !in ReadAt(readId, init) && m !in BadAt(readId, init) && m !in AboveAt(readId, init, bound)
  {
  }

  lemma DataRowsGrow(lines: seq<Line>)
    requires |lines| > 1
    ensures
      var last := lines[|lines| - 1];
      DataRows(lines) == if |last| == 9 then DataRows(lines[..|lines| - 1]) + [last] else DataRows(lines[..|lines| - 1])
  {
    hide IdTexts;
    var rows := DataRows(lines[..|lines| - 1]);
    assert rows + [] == rows;
  }

  lemma NothingAt(readId: IdReader, lines: seq<Line>, bound: int)
    requires |lines| <= 1
    ensures DataAt(lines) == {} && TextsAt(lines) == {} && RepeatsAt(lines) == {}
    ensures AboveAt(readId, lines, bound) == {} && BadAt(readId, lines) == {} && ReadAt(readId, lines) == {}
    ensures DataRows(lines) == [] && IdTexts([]) == {} && Ids(readId, []) == [] && CountAbove([], bound) == 0
  {
  }

  lemma {:induction false} DataIsRight(lines: seq<Line>)
    ensures |DataRows(lines)| == |DataAt(lines)|
  {
    if |lines| <= 1 {
      NothingAt(text => None, lines, 0);
    } else {
      hide DataRows, DataAt;
      DataIsRight(lines[..|lines| - 1]);
      DataRowsGrow(lines);
      DataGrows(lines);
    }
  }

  lemma {:induction false} TextsAreRight(lines: seq<Line>)
    ensures IdTexts(DataRows(lines)) == TextsAt(lines)
    ensures |DataRows(lines)| - |IdTexts(DataRows(lines))| == |RepeatsAt(lines)|
  {
    if |lines| <= 1 {
      NothingAt(text => None, lines, 0);
    } else {
      hide DataRows, TextsAt, RepeatsAt, IdTexts;
      var m, init := |lines| - 1, lines[..|lines| - 1];
      TextsAreRight(init);
      DataRowsGrow(lines);
      TextsGrow(lines);
      RepeatsGrow(lines);
      if |lines[m]| == 9 {
        NextRow(text => None, DataRows(init), lines[m]);
      }
    }
  }

  lemma NewestId(readId: IdReader, lines: seq<Line>)
    requires |lines| > 1
    ensures
      var m, init := |lines| - 1, lines[..|lines| - 1];
      Ids(readId, DataRows(lines))
        == if m in ReadAt(readId, lines) then Ids(readId, DataRows(init)) + [IdAt(readId, lines, m)]
           else Ids(readId, DataRows(init))
  {
    hide DataRows, Ids;
    var m, init := |lines| - 1, lines[..|lines| - 1];
    DataRowsGrow(lines);
    var ids := Ids(readId, DataRows(init));
    assert ids + [] == ids;
    if |lines[m]| == 9 {
      NextRow(readId, DataRows(init), lines[m]);
    }
  }

  lemma {:induction false} IdCountsAreRight(readId: IdReader, lines: seq<Line>, bound: int)
    requires |lines| > 0
    ensures
      var ids := Ids(readId, DataRows(lines));
      && CountAbove(ids, bound) == |AboveAt(readId, lines, bound)|
      && |lines| - 1 - |ids| == |BadAt(readId, lines)|
  {
    if |lines| == 1 {
      NothingAt(readId, lines, bound);
    } else {
      hide DataRows, Ids, CountAbove, AboveAt, BadAt;
      var m, init := |lines| - 1, lines[..|lines| - 1];
      IdCountsAreRight(readId, init, bound);
      NewestId(readId, lines);
      ReadGrows(readId, lines, bound);
      if m in ReadAt(readId, lines) {
        NextId(Ids(readId, DataRows(init)), IdAt(readId, lines, m), bound);
      }
    }
  }

  ghost predicate AscendsAt(readId: IdReader, lines: seq<Line>) {
    forall i, j :: i in ReadAt(readId, lines) && j in ReadAt(readId, lines) && i < j ==>
      IdAt(readId, lines, i) < IdAt(readId, lines, j)
  }

  lemma LastAscends(ids: seq<int>, id: int)
    ensures StrictlyAscending(ids + [id]) <==> StrictlyAscending(ids) && forall x :: x in ids ==> x < id
  {
    var more := ids + [id];
    assert forall i :: 0 <= i < |ids| ==> more[i] == ids[i] && ids[i] in ids;
    if StrictlyAscending(more) {
      forall x | x in ids
        ensures x < id
      {
        var i :| 0 <= i < |ids| && ids[i] == x;
        assert more[i] == x && more[|ids|] == id;
      }
    }
  }

  lemma SameIdAt(readId: IdReader, lines: seq<Line>, n: nat, i: nat)
    requires n <= |lines| && i in ReadAt(readId, lines[..n])
    ensures i in ReadAt(readId, lines) && IdAt(readId, lines, i) == IdAt(readId, lines[..n], i) && i < n
  {
  }

  lemma AscendsAtGrows(readId: IdReader, lines: seq<Line>)
    requires |lines| > 1
    ensures
      var m, init := |lines| - 1, lines[..|lines| - 1];
      AscendsAt(readId, lines) <==>
        && AscendsAt(readId, init)
        && (m in ReadAt(readId, lines) ==>
             forall i :: i in ReadAt(readId, init) ==> IdAt(readId, init, i) < IdAt(readId, lines, m))
  {
    hide ReadAt, IdAt;
    var m, init := |lines| - 1, lines[..|lines| - 1];
    ReadGrows(readId, lines, 0);
    forall i | i in ReadAt(readId, init)
      ensures i in ReadAt(readId, lines) && IdAt(readId, lines, i) == IdAt(readId, init, i) && i < m
    {
      SameIdAt(readId, lines, m, i);
    }
  }

  /** The ids read are those of the lines that give one, in their order. */
  lemma {:induction false} IdsAreRight(readId: IdReader, lines: seq<Line>)
    requires |lines| > 0
    ensures
      var ids := Ids(readId, DataRows(lines));
      && (forall x :: x in ids <==> exists i :: i in ReadAt(readId, lines) && IdAt(readId, lines, i) == x)
      && (StrictlyAscending(ids) <==> AscendsAt(readId, lines))
  {
    if |lines| > 1 {
      var init := lines[..|lines| - 1];
      IdsAreRight(readId, init);
      IdsGrow(readId, lines);
    }
  }

  lemma BelowAll(readId: IdReader, lines: seq<Line>, ids: seq<int>, bound: int)
    requires forall x :: x in ids <==> exists i :: i in ReadAt(readId, lines) && IdAt(readId, lines, i) == x
    ensures
      (forall i :: i in ReadAt(readId, lines) ==> IdAt(readId, lines, i) < bound) <==>
      forall x :: x in ids ==> x < bound
  {
    hide ReadAt, IdAt;
    if forall x :: x in ids ==> x < bound {
      forall i | i in ReadAt(readId, lines)
        ensures IdAt(readId, lines, i) < bound
      {
        assert IdAt(readId, lines, i) in ids;
      }
    }
  }

  lemma IdsGrow(readId: IdReader, lines: seq<Line>)
    requires |lines| > 1
    requires
      var init := lines[..|lines| - 1];
      var ids := Ids(readId, DataRows(init));
      && (forall x :: x in ids <==> exists i :: i in ReadAt(readId, init) && IdAt(readId, init, i) == x)
      && (StrictlyAscending(ids) <==> AscendsAt(readId, init))
    ensures
      var ids := Ids(readId, DataRows(lines));
      && (forall x :: x in ids <==> exists i :: i in ReadAt(readId, lines) && IdAt(readId, lines, i) == x)
      && (StrictlyAscending(ids) <==> AscendsAt(readId, lines))
  {
    hide ReadAt, IdAt, DataRows, Ids, AscendsAt, StrictlyAscending;
    var m, init := |lines| - 1, lines[..|lines| - 1];
    var before := Ids(readId, DataRows(init));
    NewestId(readId, lines);
    ReadGrows(readId, lines, 0);
    AscendsAtGrows(readId, lines);
    forall i | i in ReadAt(readId, init)
      ensures i in ReadAt(readId, lines) && IdAt(readId, lines, i) == IdAt(readId, init, i) && i < m
    {
      SameIdAt(readId, lines, m, i);
    }
    if m in ReadAt(readId, lines) {
      LastAscends(before, IdAt(readId, lines, m));
      BelowAll(readId, init, before, IdAt(readId, lines, m));
    }
  }

  lemma ReadIdIsIn(readId: IdReader, lines: seq<Line>, ids: seq<int>)
    requires forall x :: x in ids <==> exists i :: i in ReadAt(readId, lines) && IdAt(readId, lines, i) == x
    ensures forall i :: i in ReadAt(readId, lines) ==> IdAt(readId, lines, i) in ids
    ensures ids != [] <==> ReadAt(readId, lines) != {}
  {
    hide ReadAt, IdAt;
    if ids != [] {
      assert ids[0] in ids;
      var i :| i in ReadAt(readId, lines) && IdAt(readId, lines, i) == ids[0];
    }
    if i :| i in ReadAt(readId, lines) {
      assert IdAt(readId, lines, i) in ids;
    }
  }

  /** What the audit reports, over the lines of any file with a header: every counter is the number of
      what it counts, a repeated id is a line whose first field stands on an earlier one, and each
      complaint is made for its own reason. */
  lemma AuditMeans(readId: IdReader, lines: seq<Line>, fileBytes: nat, expectedRows: nat, snapshotMaxId: int)
    ensures
      var r := Audit(readId, lines, fileBytes, expectedRows, snapshotMaxId);
      IsTrueResult(readId, lines, fileBytes, expectedRows, snapshotMaxId, r)
  {
    hide DataAt, TextsAt, RepeatsAt, AboveAt, BadAt, ReadAt, IdAt, DataRows, Ids, IdTexts, CountAbove, Minimum, Maximum;
    var ids := Ids(readId, DataRows(lines));
    if |lines| == 0 {
      NothingAt(readId, lines, snapshotMaxId);
    } else {
      IdCountsAreRight(readId, lines, snapshotMaxId);
      IdsAreRight(readId, lines);
      ReadIdIsIn(readId, lines, ids);
    }
    DataIsRight(lines);
    TextsAreRight(lines);
    AscendsIff(ids);
    ExtremesAreTrue(ids);
    JudgeComplains(Counters(readId, lines, fileBytes, expectedRows, snapshotMaxId));
  }

  predicate InOrder(problems: seq<Problem>) {
    forall i, j :: 0 <= i < j < |problems| ==> Rank(problems[i]) < Rank(problems[j])
  }

  predicate Below(problems: seq<Problem>, rank: nat) {
    forall q :: q in problems ==> Rank(q) < rank
  }

  lemma PushInOrder(problems: seq<Problem>, bad: bool, problem: Problem)
    requires InOrder(problems) && Below(problems, Rank(problem))
    ensures
      var more := Push(problems, bad, problem);
      InOrder(more) && Below(more, Rank(problem) + 1)
  {
    hide Rank;
    assert forall i :: 0 <= i < |problems| ==> problems[i] in problems;
  }

  lemma PushMember(problems: seq<Problem>, bad: bool, problem: Problem, q: Problem)
    ensures q in Push(problems, bad, problem) <==> q in problems || (bad && q == problem)
  {
  }

  /** The reason for each complaint. */
  predicate Complaint(r: VerificationResult, q: Problem) {
    match q
    case BadHeader => !r.headerValid
    case WrongRowCount => r.actualRows != r.expectedRows
    case WrongUniqueCount => r.uniqueRows != r.expectedRows
    case HasDuplicates => r.duplicates != 0
    case OutsideSnapshot => r.outOfSnapshot != 0
    case NotAscending => !r.strictlyAscending
    case Malformed => r.malformedRows != 0
    case EmptyFile => r.fileBytes == 0
  }

  lemma JudgeMember(r: VerificationResult, q: Problem)
    ensures q in Judge(r).problems <==> Complaint(r, q)
  {
    hide Push;
    PushMember([], !r.headerValid, BadHeader, q);
    var p1 := Push([], !r.headerValid, BadHeader);
    PushMember(p1, r.actualRows != r.expectedRows, WrongRowCount, q);
    var p2 := Push(p1, r.actualRows != r.expectedRows, WrongRowCount);
    PushMember(p2, r.uniqueRows != r.expectedRows, WrongUniqueCount, q);
    var p3 := Push(p2, r.uniqueRows != r.expectedRows, WrongUniqueCount);
    PushMember(p3, r.duplicates != 0, HasDuplicates, q);
    var p4 := Push(p3, r.duplicates != 0, HasDuplicates);
    PushMember(p4, r.outOfSnapshot != 0, OutsideSnapshot, q);
    var p5 := Push(p4, r.outOfSnapshot != 0, OutsideSnapshot);
    PushMember(p5, !r.strictlyAscending, NotAscending, q);
    var p6 := Push(p5, !r.strictlyAscending, NotAscending);
    PushMember(p6, r.malformedRows != 0, Malformed, q);
    var p7 := Push(p6, r.malformedRows != 0, Malformed);
    PushMember(p7, r.fileBytes <= 0, EmptyFile, q);
  }

  lemma JudgeInOrder(r: VerificationResult)
    ensures InOrder(Judge(r).problems)
  {
    hide Push, InOrder, Below;
    NoneBelow();
    PushInOrder([], !r.headerValid, BadHeader);
    var p1 := Push([], !r.headerValid, BadHeader);
    PushInOrder(p1, r.actualRows != r.expectedRows, WrongRowCount);
    var p2 := Push(p1, r.actualRows != r.expectedRows, WrongRowCount);
    PushInOrder(p2, r.uniqueRows != r.expectedRows, WrongUniqueCount);
    var p3 := Push(p2, r.uniqueRows != r.expectedRows, WrongUniqueCount);
    PushInOrder(p3, r.duplicates != 0, HasDuplicates);
    var p4 := Push(p3, r.duplicates != 0, HasDuplicates);
    PushInOrder(p4, r.outOfSnapshot != 0, OutsideSnapshot);
    var p5 := Push(p4, r.outOfSnapshot != 0, OutsideSnapshot);
    PushInOrder(p5, !r.strictlyAscending, NotAscending);
    var p6 := Push(p5, !r.strictlyAscending, NotAscending);
    PushInOrder(p6, r.malformedRows != 0, Malformed);
    var p7 := Push(p6, r.malformedRows != 0, Malformed);
    PushInOrder(p7, r.fileBytes <= 0, EmptyFile);
  }

  lemma NoneBelow()
    ensures InOrder([]) && Below([], 0)
  {
  }

  /** Each complaint of the list is there for its own reason, and in order. */
  lemma JudgeComplains(r: VerificationResult)
    ensures ComplainsRight(Judge(r)) && Judge(r) == r.(problems := Judge(r).problems)
  {
    hide Push, InOrder;
    JudgeInOrder(r);
    forall q
      ensures q in Judge(r).problems <==> Complaint(Judge(r), q)
    {
      JudgeMember(r, q);
    }
  }

  predicate IsSourceHeader(line: Line) {
    line == ["id", "external_id", "name", "email", "category", "amount", "status", "created_at", "updated_at"]
  }

  ghost predicate IsTrueResult(
    readId: IdReader, lines: seq<Line>, fileBytes: nat, expectedRows: nat, snapshotMaxId: int, r: VerificationResult)
  {
    && r.expectedRows == expectedRows && r.fileBytes == fileBytes
    && (r.headerValid <==> |lines| > 0 && IsSourceHeader(lines[0]))
    && CountsRight(readId, lines, snapshotMaxId, r)
    && OrderRight(readId, lines, r)
    && ComplainsRight(r)
  }
}
