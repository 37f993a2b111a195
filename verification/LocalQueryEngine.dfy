/** A node's own shard: the engine that counts and scans its files, and the
    worker that labels what the scan returns. */
module LocalQueryEngine {
  import opened Results
  import opened LocalScan
  import opened ChunkSizing
  import opened Protocol

  datatype Range<T> = Range(lo: T, hi: T)

  /** Optional conditions of a query; an absent one accepts everything. */
  datatype Filter = Filter(
    pickup: Option<Range<int>>,
    dropoff: Option<Range<int>>,
    distance: Option<Range<real>>,
    tipAmount: Option<Range<int>>,
    totalAmount: Option<Range<int>>,
    paymentType: Option<int>
  )

  datatype ParsedRow = ParsedRow(
    pickupDatetime: int,
    dropoffDatetime: int,
    tripDistance: real,
    paymentType: int,
    tipAmountCents: int,
    totalAmountCents: int
  )

  predicate InRange(r: Option<Range<int>>, v: int) {
    r.Some? ==> r.value.lo <= v <= r.value.hi
  }

  predicate MatchesRow(row: ParsedRow, f: Filter) {
    && InRange(f.pickup, row.pickupDatetime)
    && InRange(f.dropoff, row.dropoffDatetime)
    && (f.distance.Some? ==> f.distance.value.lo <= row.tripDistance <= f.distance.value.hi)
    && InRange(f.tipAmount, row.tipAmountCents)
    && InRange(f.totalAmount, row.totalAmountCents)
    && (f.paymentType.Some? ==> row.paymentType == f.paymentType.value)
  }

  /** The delivered trip keeps the low eight bits of the payment type. */
  function ToTaxiTrip(row: ParsedRow): TaxiTrip {
    TaxiTrip(row.pickupDatetime, row.dropoffDatetime, row.paymentType % 256, row.tripDistance,
             row.tipAmountCents, row.totalAmountCents)
  }

  /** The CSV parser: it accepts or refuses a header, and then reads lines under it. */
  datatype Parser = Parser(accepts: string -> bool, parse: (string, string) -> Option<ParsedRow>)

  datatype DataFile = DataFile(opens: bool, header: Option<string>, lines: seq<string>)

  datatype PartitionStore = PartitionStore(valid: bool, files: seq<DataFile>)

  predicate Usable(f: DataFile, parser: Parser) {
    f.opens && f.header.Some? && parser.accepts(f.header.value)
  }

  function Classify(header: string, line: string, parser: Parser, f: Filter): Row {
    match parser.parse(header, line)
    case None => None
    case Some(row) => if MatchesRow(row, f) then Some(ToTaxiTrip(row)) else None
  }

  /** Empty lines are not rows. */
  function LineRows(header: string, lines: seq<string>, parser: Parser, f: Filter): seq<Row> {
    if lines == [] then []
    else
      var first := if lines[0] == "" then [] else [Classify(header, lines[0], parser, f)];
      first + LineRows(header, lines[1..], parser, f)
  }

  function FileRows(file: DataFile, parser: Parser, f: Filter): seq<Row> {
    if Usable(file, parser) then LineRows(file.header.value, file.lines, parser, f) else []
  }

  function AllFileRows(files: seq<DataFile>, parser: Parser, f: Filter): seq<Row> {
    if files == [] then [] else FileRows(files[0], parser, f) + AllFileRows(files[1..], parser, f)
  }

  /** The logical rows of a store, numbered in scan order. */
  function StoreRows(store: PartitionStore, parser: Parser, f: Filter): seq<Row> {
    if store.valid then AllFileRows(store.files, parser, f) else []
  }

  datatype LocalQueryResult = LocalQueryResult(
    rowsScanned: nat,
    rowsMatched: nat,
    ids: seq<nat>,
    trips: seq<TaxiTrip>,
    rowsEmitted: nat,
    nextStartRow: nat,
    hasMore: bool
  )

  /** What is left of the logical rows when the scan stands in front of row `at`. */
  ghost predicate Remaining(rows: seq<Row>, at: nat, rest: seq<Row>) {
    at <= |rows| && rows[at..] == rest
  }

  ghost predicate AtFile(rows: seq<Row>, at: nat, files: seq<DataFile>, i: nat, parser: Parser, f: Filter) {
    i <= |files| && Remaining(rows, at, AllFileRows(files[i..], parser, f))
  }

  ghost predicate AtLine(rows: seq<Row>, at: nat, files: seq<DataFile>, i: nat, j: nat, parser: Parser, f: Filter) {
    && i < |files| && Usable(files[i], parser) && j <= |files[i].lines|
    && Remaining(rows, at,
        LineRows(files[i].header.value, files[i].lines[j..], parser, f) + AllFileRows(files[i + 1..], parser, f))
  }

  lemma EnterFile(rows: seq<Row>, at: nat, files: seq<DataFile>, i: nat, parser: Parser, f: Filter)
    requires i < |files| && AtFile(rows, at, files, i, parser, f)
    ensures if Usable(files[i], parser) then AtLine(rows, at, files, i, 0, parser, f)
      else AtFile(rows, at, files, i + 1, parser, f)
  {
    assert files[i..][1..] == files[i + 1..];
    assert files[i].lines[0..] == files[i].lines;
  }

  lemma LeaveFile(rows: seq<Row>, at: nat, files: seq<DataFile>, i: nat, parser: Parser, f: Filter)
    requires i < |files| && AtLine(rows, at, files, i, |files[i].lines|, parser, f)
    ensures AtFile(rows, at, files, i + 1, parser, f)
  {
  }

  lemma LineStep(rows: seq<Row>, at: nat, files: seq<DataFile>, i: nat, j: nat, parser: Parser, f: Filter)
    requires AtLine(rows, at, files, i, j, parser, f) && j < |files[i].lines|
    ensures files[i].lines[j] == "" ==> AtLine(rows, at, files, i, j + 1, parser, f)
    ensures files[i].lines[j] != "" ==>
      && at < |rows| && rows[at] == Classify(files[i].header.value, files[i].lines[j], parser, f)
      && AtLine(rows, at + 1, files, i, j + 1, parser, f)
  {
    var header, lines, later := files[i].header.value, files[i].lines, AllFileRows(files[i + 1..], parser, f);
    assert lines[j..][1..] == lines[j + 1..];
    var tail := LineRows(header, lines[j + 1..], parser, f);
    if lines[j] != "" {
      var row := Classify(header, lines[j], parser, f);
      assert LineRows(header, lines[j..], parser, f) == [row] + tail;
      assert ([row] + tail) + later == [row] + (tail + later);
      assert rows[at] == rows[at..][0];
      assert rows[at + 1..] == rows[at..][1..];
    } else {
      assert LineRows(header, lines[j..], parser, f) == tail;
    }
  }

  lemma AllFilesRead(rows: seq<Row>, at: nat, files: seq<DataFile>, parser: Parser, f: Filter)
    requires AtFile(rows, at, files, |files|, parser, f)
    ensures at == |rows|
  {
  }

  /** A scan in progress: what was collected so far, then the rest. */
  function Ahead(ids: seq<nat>, trips: seq<TaxiTrip>, scanned: nat, rest: Chunk): Chunk {
    Chunk(ids + rest.ids, trips + rest.trips, scanned + rest.rowsScanned, rest.nextStartRow, rest.hasMore)
  }

  function Larger(a: nat, b: nat): nat {
    if a < b then b else a
  }

  /** The arguments of one scan. */
  datatype Scan = Scan(rows: seq<Row>, startRow: nat, limit: nat, budget: nat) {

    ghost predicate Valid() {
      limit > 0 && budget > 0
    }

    ghost function Result(): Chunk
      requires Valid()
    {
      ScanFrom(rows, startRow, limit, budget)
    }

    /** The collected rows and the scan of the remaining rows make up the result. */
    ghost predicate Reached(at: nat, ids: seq<nat>, trips: seq<TaxiTrip>, scanned: nat) {
      && Valid() && at <= |rows| && |ids| < limit && scanned <= budget
      && (at < startRow ==> ids == [] && trips == [] && scanned == 0)
      && Result() == Ahead(ids, trips, scanned, ScanFrom(rows, Larger(at, startRow), limit - |ids|, budget - scanned))
    }

    lemma Begin()
      requires Valid()
      ensures Reached(0, [], [], 0)
    {
    }

    lemma Skip(at: nat, ids: seq<nat>, trips: seq<TaxiTrip>, scanned: nat)
      requires Reached(at, ids, trips, scanned) && at < startRow && at < |rows|
      ensures Reached(at + 1, ids, trips, scanned)
    {
    }

    lemma OutOfBudget(at: nat, ids: seq<nat>, trips: seq<TaxiTrip>, scanned: nat)
      requires Reached(at, ids, trips, scanned) && startRow <= at < |rows| && scanned == budget
      ensures Result() == Chunk(ids, trips, scanned, at, true)
    {
    }

    lemma Miss(at: nat, ids: seq<nat>, trips: seq<TaxiTrip>, scanned: nat)
      requires Reached(at, ids, trips, scanned) && startRow <= at < |rows| && scanned < budget && rows[at].None?
      ensures Reached(at + 1, ids, trips, scanned + 1)
    {
    }

    lemma Hit(at: nat, ids: seq<nat>, trips: seq<TaxiTrip>, scanned: nat)
      requires Reached(at, ids, trips, scanned) && startRow <= at < |rows| && scanned < budget && rows[at].Some?
      ensures |ids| + 1 < limit ==> Reached(at + 1, ids + [at], trips + [rows[at].value], scanned + 1)
      ensures |ids| + 1 == limit ==> Result() == Chunk(ids + [at], trips + [rows[at].value], scanned + 1, at + 1, true)
    {
      if |ids| + 1 < limit {
        var rest := ScanFrom(rows, at + 1, limit - |ids| - 1, budget - scanned - 1);
        assert ids + ([at] + rest.ids) == (ids + [at]) + rest.ids;
        assert trips + ([rows[at].value] + rest.trips) == (trips + [rows[at].value]) + rest.trips;
      }
    }

    lemma End(ids: seq<nat>, trips: seq<TaxiTrip>, scanned: nat)
      requires Reached(|rows|, ids, trips, scanned)
      ensures Result() == Chunk(ids, trips, scanned, |rows|, false)
    {
    }
  }

  function OrElse(size: nat, fallback: nat): nat {
    if size == 0 then fallback else size
  }

  function AsResult(c: Chunk): LocalQueryResult {
    LocalQueryResult(c.rowsScanned, |c.ids|, c.ids, c.trips, |c.ids|, c.nextStartRow, c.hasMore)
  }

  /** One non-empty line: skipped before the start row, refused when the budget is used up, else read; the
      scan stops inside the file, with its result complete, or goes on behind the line. */
  method ScanLine(ghost scan: Scan, header: string, line: string, parser: Parser, f: Filter, startRow: nat,
      limit: nat, budget: nat, localRowId0: nat, ids0: seq<nat>, trips0: seq<TaxiTrip>, scanned0: nat)
    returns (localRowId: nat, ids: seq<nat>, trips: seq<TaxiTrip>, scanned: nat, stopped: bool)
    requires scan.startRow == startRow && scan.limit == limit && scan.budget == budget
    requires scan.Reached(localRowId0, ids0, trips0, scanned0)
    requires localRowId0 < |scan.rows| && scan.rows[localRowId0] == Classify(header, line, parser, f)
    ensures stopped ==> scan.Result() == Chunk(ids, trips, scanned, localRowId, true)
    ensures !stopped ==> localRowId == localRowId0 + 1 && scan.Reached(localRowId, ids, trips, scanned)
  {
    localRowId, ids, trips, scanned, stopped := localRowId0, ids0, trips0, scanned0, false;
    if localRowId < startRow {
      scan.Skip(localRowId, ids, trips, scanned);
      localRowId := localRowId + 1;
      return;
    }
    if scanned >= budget {
      scan.OutOfBudget(localRowId, ids, trips, scanned);
      stopped := true;
      return;
    }
    var parsed := parser.parse(header, line);
    if parsed.None? || !MatchesRow(parsed.value, f) {
      scan.Miss(localRowId, ids, trips, scanned);
      scanned := scanned + 1;
      localRowId := localRowId + 1;
      return;
    }
    scan.Hit(localRowId, ids, trips, scanned);
    scanned := scanned + 1;
    ids := ids + [localRowId];
    trips := trips + [ToTaxiTrip(parsed.value)];
    localRowId := localRowId + 1;
    stopped := |ids| >= limit;
  }

  /** The scan of one open file: it stops early, inside the file, with the
      result complete, or reads the file to its end. */
  method ScanFile(ghost scan: Scan, files: seq<DataFile>, i: nat, parser: Parser, f: Filter, startRow: nat,
      limit: nat, budget: nat, localRowId0: nat, ids0: seq<nat>, trips0: seq<TaxiTrip>, scanned0: nat)
    returns (localRowId: nat, ids: seq<nat>, trips: seq<TaxiTrip>, scanned: nat, stopped: bool)
    requires scan.startRow == startRow && scan.limit == limit && scan.budget == budget
    requires AtLine(scan.rows, localRowId0, files, i, 0, parser, f) && scan.Reached(localRowId0, ids0, trips0, scanned0)
    ensures stopped ==> scan.Result() == Chunk(ids, trips, scanned, localRowId, true)
    ensures !stopped ==> AtFile(scan.rows, localRowId, files, i + 1, parser, f)
    ensures !stopped ==> scan.Reached(localRowId, ids, trips, scanned)
  {
    localRowId, ids, trips, scanned, stopped := localRowId0, ids0, trips0, scanned0, false;
    var j := 0;
    while j < |files[i].lines|
      invariant AtLine(scan.rows, localRowId, files, i, j, parser, f)
      invariant scan.Reached(localRowId, ids, trips, scanned) && !stopped
    {
      var line := files[i].lines[j];
      LineStep(scan.rows, localRowId, files, i, j, parser, f);
      j := j + 1;
      if line == "" {
        continue;
      }
      localRowId, ids, trips, scanned, stopped :=
        ScanLine(scan, files[i].header.value, line, parser, f, startRow, limit, budget, localRowId, ids, trips,
            scanned);
      if stopped {
        return;
      }
    }
    LeaveFile(scan.rows, localRowId, files, i, parser, f);
  }

  /** The resumable scan over nested files and lines computes `ScanFrom` on
      the logical rows; a size of 0 stands for no limit and for the default budget. */
  method Execute(store: PartitionStore, parser: Parser, f: Filter, startRow: nat, chunkSize: nat, scanRowBudget: nat)
    returns (result: LocalQueryResult)
    ensures result == AsResult(ScanFrom(StoreRows(store, parser, f), startRow, OrElse(chunkSize, SIZE_MAX),
      OrElse(scanRowBudget, SCAN_ROW_BUDGET)))
  {
    if !store.valid {
      return LocalQueryResult(0, 0, [], [], 0, 0, false);
    }
    var files := store.files;
    var limit := OrElse(chunkSize, SIZE_MAX);
    var budget := OrElse(scanRowBudget, SCAN_ROW_BUDGET);
    ghost var scan := Scan(StoreRows(store, parser, f), startRow, limit, budget);
    var localRowId, scannedThisChunk, stopped := 0, 0, false;
    var ids: seq<nat>, trips: seq<TaxiTrip> := [], [];
    assert files[0..] == files;
    scan.Begin();
    var i := 0;
    while i < |files|
      invariant AtFile(scan.rows, localRowId, files, i, parser, f)
      invariant scan.Reached(localRowId, ids, trips, scannedThisChunk)
    {
      EnterFile(scan.rows, localRowId, files, i, parser, f);
      if Usable(files[i], parser) {
        localRowId, ids, trips, scannedThisChunk, stopped :=
          ScanFile(scan, files, i, parser, f, startRow, limit, budget, localRowId, ids, trips, scannedThisChunk);
        if stopped {
          return LocalQueryResult(scannedThisChunk, |ids|, ids, trips, |ids|, localRowId, true);
        }
      }
      i := i + 1;
    }
    AllFilesRead(scan.rows, localRowId, files, parser, f);
    scan.End(ids, trips, scannedThisChunk);
    return LocalQueryResult(scannedThisChunk, |ids|, ids, trips, |ids|, localRowId, false);
  }

  lemma {:induction false} MatchingCountShifts(rows: seq<Row>, at: nat)
    requires at < |rows|
    ensures |Matching(rows, 0, at + 1)| == |Matching(rows, 0, at)| + if rows[at].Some? then 1 else 0
  {
    MatchingSplits(rows, 0, at, at + 1);
    assert Matching(rows, at + 1, at + 1) == [];
  }

  /** The counting pass over one open file. */
  method CountFile(ghost rows: seq<Row>, files: seq<DataFile>, i: nat, parser: Parser, f: Filter, rowsScanned0: nat,
      rowsMatched0: nat)
    returns (rowsScanned: nat, rowsMatched: nat)
    requires AtLine(rows, rowsScanned0, files, i, 0, parser, f) && CountedTo(rows, rowsScanned0, rowsMatched0)
    ensures AtFile(rows, rowsScanned, files, i + 1, parser, f) && CountedTo(rows, rowsScanned, rowsMatched)
  {
    rowsScanned, rowsMatched := rowsScanned0, rowsMatched0;
    var j := 0;
    while j < |files[i].lines|
      invariant AtLine(rows, rowsScanned, files, i, j, parser, f) && CountedTo(rows, rowsScanned, rowsMatched)
    {
      var line := files[i].lines[j];
      LineStep(rows, rowsScanned, files, i, j, parser, f);
      j := j + 1;
      if line == "" {
        continue;
      }
      MatchingCountShifts(rows, rowsScanned);
      rowsScanned := rowsScanned + 1;
      var parsed := parser.parse(files[i].header.value, line);
      if parsed.None? || !MatchesRow(parsed.value, f) {
        continue;
      }
      rowsMatched := rowsMatched + 1;
    }
    LeaveFile(rows, rowsScanned, files, i, parser, f);
  }

  ghost predicate CountedTo(rows: seq<Row>, at: nat, matched: nat) {
    at <= |rows| && matched == |Matching(rows, 0, at)|
  }

  /** One pass over the whole store. */
  method Count(store: PartitionStore, parser: Parser, f: Filter) returns (rowsScanned: nat, rowsMatched: nat)
    ensures rowsScanned == |StoreRows(store, parser, f)|
    ensures rowsMatched == |Matching(StoreRows(store, parser, f), 0, |StoreRows(store, parser, f)|)|
  {
    rowsScanned, rowsMatched := 0, 0;
    if !store.valid {
      return;
    }
    var files := store.files;
    ghost var rows := StoreRows(store, parser, f);
    assert files[0..] == files;
    var i := 0;
    while i < |files|
      invariant AtFile(rows, rowsScanned, files, i, parser, f) && CountedTo(rows, rowsScanned, rowsMatched)
    {
      EnterFile(rows, rowsScanned, files, i, parser, f);
      if Usable(files[i], parser) {
        rowsScanned, rowsMatched := CountFile(rows, files, i, parser, f, rowsScanned, rowsMatched);
      }
      i := i + 1;
    }
    AllFilesRead(rows, rowsScanned, files, parser, f);
  }

  /** A worker's chunk: the engine's rows, each labelled with this node. */
  method RunExecute(nodeId: NodeId, store: PartitionStore, parser: Parser, f: Filter, startRow: nat, chunkSize: nat,
      scanRowBudget: nat)
    returns (result: QueryResult)
    ensures result == LocalResult(nodeId,
      ScanFrom(StoreRows(store, parser, f), startRow, OrElse(chunkSize, SIZE_MAX),
          OrElse(scanRowBudget, SCAN_ROW_BUDGET)))
  {
    var found := Execute(store, parser, f, startRow, chunkSize, scanRowBudget);
    var sources: seq<NodeId> := [];
    var i := 0;
    while i < |found.trips|
      invariant i <= |found.trips| && sources == Repeat(nodeId, i)
    {
      sources := sources + [nodeId];
      i := i + 1;
    }
    var refs: seq<RowRef> := [];
    i := 0;
    while i < |found.ids|
      invariant i <= |found.ids| && refs == RowRefs(nodeId, found.ids[..i])
    {
      refs := refs + [RowRef(nodeId, found.ids[i])];
      i := i + 1;
    }
    assert found.ids[..i] == found.ids;
    result := QueryResult(found.rowsScanned, found.rowsMatched, refs, found.trips, sources, 0,
                          found.rowsEmitted, found.nextStartRow, found.hasMore);
  }

  /** `Count` agrees with the resumed scan: feeding `nextStartRow` back until `hasMore`
      is false scans and matches as many rows as one counting pass. */
  lemma ResumedScanAgreesWithCount(rows: seq<Row>, calls: seq<Sizes>)
    requires forall i :: 0 <= i < |calls| ==> calls[i].limit > 0
    requires !Resume(rows, 0, calls).hasMore
    ensures Resume(rows, 0, calls).rowsScanned == |rows|
    ensures |Resume(rows, 0, calls).ids| == |Matching(rows, 0, |rows|)|
  {
    ResumedScanRefinesFilter(rows, calls);
  }
}
