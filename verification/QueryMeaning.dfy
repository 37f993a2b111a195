/** What a query asks for: the conditions of a filter, the rows of a store, and what the scan and the
    count select from them. */
module QueryMeaning {
  import opened Results
  import opened LocalScan
  import opened ChunkSizing
  import opened Protocol
  import opened LocalQueryEngine

  // ----- filters

  const ANYTHING := Filter(None, None, None, None, None, None)

  /** The filters that have at most one condition, taken from the same condition of `f`. */
  function PickupPart(f: Filter): Filter { ANYTHING.(pickup := f.pickup) }

  function DropoffPart(f: Filter): Filter { ANYTHING.(dropoff := f.dropoff) }

  function DistancePart(f: Filter): Filter { ANYTHING.(distance := f.distance) }

  function TipPart(f: Filter): Filter { ANYTHING.(tipAmount := f.tipAmount) }

  function TotalPart(f: Filter): Filter { ANYTHING.(totalAmount := f.totalAmount) }

  function PaymentPart(f: Filter): Filter { ANYTHING.(paymentType := f.paymentType) }

  lemma NoConditionAcceptsAll(row: ParsedRow)
    ensures MatchesRow(row, ANYTHING)
  {
  }

  lemma PickupCondition(row: ParsedRow, lo: int, hi: int)
    ensures MatchesRow(row, ANYTHING.(pickup := Some(Range(lo, hi))))
         <==> lo <= row.pickupDatetime && row.pickupDatetime <= hi
  {
  }

  lemma DropoffCondition(row: ParsedRow, lo: int, hi: int)
    ensures MatchesRow(row, ANYTHING.(dropoff := Some(Range(lo, hi))))
         <==> lo <= row.dropoffDatetime && row.dropoffDatetime <= hi
  {
  }

  lemma DistanceCondition(row: ParsedRow, lo: real, hi: real)
    ensures MatchesRow(row, ANYTHING.(distance := Some(Range(lo, hi))))
         <==> lo <= row.tripDistance && row.tripDistance <= hi
  {
  }

  lemma TipCondition(row: ParsedRow, lo: int, hi: int)
    ensures MatchesRow(row, ANYTHING.(tipAmount := Some(Range(lo, hi))))
         <==> lo <= row.tipAmountCents && row.tipAmountCents <= hi
  {
  }

  lemma TotalCondition(row: ParsedRow, lo: int, hi: int)
    ensures MatchesRow(row, ANYTHING.(totalAmount := Some(Range(lo, hi))))
         <==> lo <= row.totalAmountCents && row.totalAmountCents <= hi
  {
  }

  lemma PaymentCondition(row: ParsedRow, wanted: int)
    ensures MatchesRow(row, ANYTHING.(paymentType := Some(wanted))) <==> row.paymentType == wanted
  {
  }

  /** The conditions of a filter are independent of each other, and all of them count. */
  lemma FilterIsItsParts(row: ParsedRow, f: Filter)
    ensures MatchesRow(row, f) <==>
      && MatchesRow(row, PickupPart(f)) && MatchesRow(row, DropoffPart(f)) && MatchesRow(row, DistancePart(f))
      && MatchesRow(row, TipPart(f)) && MatchesRow(row, TotalPart(f)) && MatchesRow(row, PaymentPart(f))
  {
  }

  /** The delivered trip has the fields of the row, the payment type to eight bits. */
  lemma TripCarriesRow(row: ParsedRow)
    ensures var trip := ToTaxiTrip(row);
      && trip.pickupEpochMs == row.pickupDatetime && trip.dropoffEpochMs == row.dropoffDatetime
      && trip.tripDistance == row.tripDistance
      && trip.tipAmountCents == row.tipAmountCents && trip.totalAmountCents == row.totalAmountCents
      && trip.paymentType < 256 && (row.paymentType - trip.paymentType) % 256 == 0
  {
  }

  // ----- the rows of a store

  /** A line of a store: its file and its place in the file. */
  datatype Place = Place(file: nat, line: nat)

  /** The store has a row there: the file can be opened and its header is accepted, and the line is not empty. */
  ghost predicate HasRow(store: PartitionStore, parser: Parser, p: Place) {
    && store.valid && p.file < |store.files|
    && store.files[p.file].opens && store.files[p.file].header.Some? && parser.accepts(store.files[p.file].header.value)
    && p.line < |store.files[p.file].lines| && store.files[p.file].lines[p.line] != ""
  }

  function ParsedAt(store: PartitionStore, parser: Parser, p: Place): Option<ParsedRow>
    requires HasRow(store, parser, p)
  {
    parser.parse(store.files[p.file].header.value, store.files[p.file].lines[p.line])
  }

  ghost predicate Earlier(p: Place, q: Place) {
    p.file < q.file || (p.file == q.file && p.line < q.line)
  }

  /** `places` lists, in order, exactly the places that have a row among the files from `file` on (and, in that
      file, from line `line` on). */
  ghost predicate Lists(store: PartitionStore, parser: Parser, from: Place, places: seq<Place>) {
    && (forall k :: 0 <= k < |places| ==> HasRow(store, parser, places[k]) && !Earlier(places[k], from))
    && (forall j, k {:trigger Earlier(places[j], places[k])} :: 0 <= j < k < |places| ==> Earlier(places[j], places[k]))
    && (forall p :: HasRow(store, parser, p) && !Earlier(p, from) ==> p in places)
  }

  /** The logical rows as the filter sees them, place by place. */
  ghost predicate RowsAt(store: PartitionStore, parser: Parser, f: Filter, places: seq<Place>, rows: seq<Row>)
    requires forall k :: 0 <= k < |places| ==> HasRow(store, parser, places[k])
  {
    |rows| == |places| && forall k :: 0 <= k < |places| ==>
      match ParsedAt(store, parser, places[k])
      case None => rows[k] == None
      case Some(row) => rows[k] == if MatchesRow(row, f) then Some(ToTaxiTrip(row)) else None
  }

  /** The same for the rest of file `i` from line `j` on and the files after it. */
  ghost predicate ListedFrom(store: PartitionStore, parser: Parser, f: Filter, i: nat, j: nat, places: seq<Place>) {
    && store.valid && i < |store.files| && Usable(store.files[i], parser) && j <= |store.files[i].lines|
    && Lists(store, parser, Place(i, j), places)
    && RowsAt(store, parser, f, places, LineRows(store.files[i].header.value, store.files[i].lines[j..], parser, f)
                                        + AllFileRows(store.files[i + 1..], parser, f))
  }

  /** A list of places from `b` on is also one from `a` on if no row is between. */
  lemma NothingBetween(store: PartitionStore, parser: Parser, a: Place, b: Place, places: seq<Place>)
    requires Earlier(a, b) && Lists(store, parser, b, places)
    requires forall p :: HasRow(store, parser, p) && !Earlier(p, a) ==> !Earlier(p, b)
    ensures Lists(store, parser, a, places)
  {
    forall k | 0 <= k < |places| ensures !Earlier(places[k], a) {
      assert !Earlier(places[k], b);
    }
  }

  lemma EndOfFile(store: PartitionStore, parser: Parser, f: Filter, i: nat, later: seq<Place>)
    requires store.valid && i < |store.files| && Usable(store.files[i], parser)
    requires Lists(store, parser, Place(i + 1, 0), later)
    requires RowsAt(store, parser, f, later, AllFileRows(store.files[i + 1..], parser, f))
    ensures ListedFrom(store, parser, f, i, |store.files[i].lines|, later)
  {
    NothingBetween(store, parser, Place(i, |store.files[i].lines|), Place(i + 1, 0), later);
    assert store.files[i].lines[|store.files[i].lines|..] == [];
    assert [] + AllFileRows(store.files[i + 1..], parser, f) == AllFileRows(store.files[i + 1..], parser, f);
  }

  lemma EmptyLine(store: PartitionStore, parser: Parser, f: Filter, i: nat, j: nat, rest: seq<Place>)
    requires ListedFrom(store, parser, f, i, j + 1, rest) && store.files[i].lines[j] == ""
    ensures ListedFrom(store, parser, f, i, j, rest)
  {
    var header, lines := store.files[i].header.value, store.files[i].lines;
    forall p | HasRow(store, parser, p) && !Earlier(p, Place(i, j)) ensures p in rest {
      assert p != Place(i, j);
    }
    assert lines[j..][1..] == lines[j + 1..];
    assert LineRows(header, lines[j..], parser, f) == LineRows(header, lines[j + 1..], parser, f);
  }

  lemma OneMorePlace(store: PartitionStore, parser: Parser, i: nat, j: nat, rest: seq<Place>)
    requires HasRow(store, parser, Place(i, j)) && Lists(store, parser, Place(i, j + 1), rest)
    ensures Lists(store, parser, Place(i, j), [Place(i, j)] + rest)
  {
    var places := [Place(i, j)] + rest;
    forall p | HasRow(store, parser, p) && !Earlier(p, Place(i, j)) ensures p in places {
      assert p == Place(i, j) || !Earlier(p, Place(i, j + 1));
      assert places[0] == Place(i, j) && places[1..] == rest;
    }
  }

  lemma OneMoreRow(store: PartitionStore, parser: Parser, f: Filter, p: Place, rest: seq<Place>, rows: seq<Row>)
    requires HasRow(store, parser, p) && (forall k :: 0 <= k < |rest| ==> HasRow(store, parser, rest[k]))
    requires RowsAt(store, parser, f, rest, rows)
    ensures forall k :: 0 <= k < |[p] + rest| ==> HasRow(store, parser, ([p] + rest)[k])
    ensures RowsAt(store, parser, f, [p] + rest,
              [Classify(store.files[p.file].header.value, store.files[p.file].lines[p.line], parser, f)] + rows)
  {
  }

  lemma RowLine(store: PartitionStore, parser: Parser, f: Filter, i: nat, j: nat, rest: seq<Place>)
    requires ListedFrom(store, parser, f, i, j + 1, rest) && store.files[i].lines[j] != ""
    ensures ListedFrom(store, parser, f, i, j, [Place(i, j)] + rest)
  {
    var header, lines := store.files[i].header.value, store.files[i].lines;
    var rows, later := LineRows(header, lines[j + 1..], parser, f), AllFileRows(store.files[i + 1..], parser, f);
    OneMorePlace(store, parser, i, j, rest);
    OneMoreRow(store, parser, f, Place(i, j), rest, rows + later);
    assert lines[j..][1..] == lines[j + 1..];
    assert LineRows(header, lines[j..], parser, f) == [Classify(header, lines[j], parser, f)] + rows;
    Regroup([Classify(header, lines[j], parser, f)], rows, later);
  }

  lemma {:induction false} LinesListed(store: PartitionStore, parser: Parser, f: Filter, i: nat, j: nat,
      later: seq<Place>)
    returns (places: seq<Place>)
    requires store.valid && i < |store.files| && Usable(store.files[i], parser) && j <= |store.files[i].lines|
    requires Lists(store, parser, Place(i + 1, 0), later)
    requires RowsAt(store, parser, f, later, AllFileRows(store.files[i + 1..], parser, f))
    ensures ListedFrom(store, parser, f, i, j, places)
    decreases |store.files[i].lines| - j
  {
    if j == |store.files[i].lines| {
      places := later;
      EndOfFile(store, parser, f, i, later);
    } else {
      var rest := LinesListed(store, parser, f, i, j + 1, later);
      if store.files[i].lines[j] == "" {
        places := rest;
        EmptyLine(store, parser, f, i, j, rest);
      } else {
        places := [Place(i, j)] + rest;
        RowLine(store, parser, f, i, j, rest);
      }
    }
  }

  /** The same for the files from `i` on. */
  ghost predicate ListedFiles(store: PartitionStore, parser: Parser, f: Filter, i: nat, places: seq<Place>) {
    && store.valid && i <= |store.files|
    && Lists(store, parser, Place(i, 0), places)
    && RowsAt(store, parser, f, places, AllFileRows(store.files[i..], parser, f))
  }

  lemma RowsOfFiles(files: seq<DataFile>, i: nat, parser: Parser, f: Filter)
    requires i < |files|
    ensures AllFileRows(files[i..], parser, f) == FileRows(files[i], parser, f) + AllFileRows(files[i + 1..], parser, f)
  {
    assert files[i..][1..] == files[i + 1..];
  }

  lemma SkippedFile(store: PartitionStore, parser: Parser, f: Filter, i: nat, rest: seq<Place>)
    requires ListedFiles(store, parser, f, i + 1, rest) && !Usable(store.files[i], parser)
    ensures ListedFiles(store, parser, f, i, rest)
  {
    RowsOfFiles(store.files, i, parser, f);
    assert [] + AllFileRows(store.files[i + 1..], parser, f) == AllFileRows(store.files[i + 1..], parser, f);
    NothingBetween(store, parser, Place(i, 0), Place(i + 1, 0), rest);
  }

  lemma ReadFile(store: PartitionStore, parser: Parser, f: Filter, i: nat, places: seq<Place>)
    requires ListedFrom(store, parser, f, i, 0, places)
    ensures ListedFiles(store, parser, f, i, places)
  {
    RowsOfFiles(store.files, i, parser, f);
    assert store.files[i].lines[0..] == store.files[i].lines;
  }

  lemma {:induction false} FilesListed(store: PartitionStore, parser: Parser, f: Filter, i: nat)
    returns (places: seq<Place>)
    requires store.valid && i <= |store.files|
    ensures ListedFiles(store, parser, f, i, places)
    decreases |store.files| - i
  {
    if i == |store.files| {
      places := [];
    } else {
      places := FilesListed(store, parser, f, i + 1);
      if Usable(store.files[i], parser) {
        places := LinesListed(store, parser, f, i, 0, places);
        ReadFile(store, parser, f, i, places);
      } else {
        SkippedFile(store, parser, f, i, places);
      }
    }
  }

  /** The logical rows of a store are its non-empty lines under accepted headers, in file and line order, each as the
      parser reads it and the filter judges it. */
  lemma StoreRowsAreItsLines(store: PartitionStore, parser: Parser, f: Filter) returns (places: seq<Place>)
    ensures Lists(store, parser, Place(0, 0), places) && RowsAt(store, parser, f, places, StoreRows(store, parser, f))
  {
    if store.valid {
      places := FilesListed(store, parser, f, 0);
      assert store.files[0..] == store.files;
    } else {
      places := [];
    }
  }

  // ----- what the scan and the count select

  /** Row `k` of the store parses, and the parsed row passes the test. */
  ghost predicate Picked(store: PartitionStore, parser: Parser, places: seq<Place>, test: ParsedRow -> bool, k: nat)
    requires forall j :: 0 <= j < |places| ==> HasRow(store, parser, places[j])
  {
    k < |places| && ParsedAt(store, parser, places[k]).Some? && test(ParsedAt(store, parser, places[k]).value)
  }

  /** `ids` lists, in increasing order, exactly the rows of [lo, hi) that are picked. */
  ghost predicate ExactlyPicked(store: PartitionStore, parser: Parser, places: seq<Place>, test: ParsedRow -> bool,
      lo: nat, hi: nat, ids: seq<nat>)
    requires forall j :: 0 <= j < |places| ==> HasRow(store, parser, places[j])
  {
    && (forall i, j :: 0 <= i < j < |ids| ==> ids[i] < ids[j])
    && (forall k :: k in ids <==> lo <= k < hi && Picked(store, parser, places, test, k))
  }

  /** A query with filter `f` selects the rows that pass `test`: the scan returns exactly those of the rows it
      passed over, and the count counts all of them. */
  ghost predicate Selects(
      store: PartitionStore, parser: Parser, f: Filter, test: ParsedRow -> bool, places: seq<Place>)
  {
    && Lists(store, parser, Place(0, 0), places)
    && (forall startRow: nat, limit: nat, budget: nat :: startRow <= |places| && limit > 0 ==>
          var c := ScanFrom(StoreRows(store, parser, f), startRow, limit, budget);
          ExactlyPicked(store, parser, places, test, startRow, c.nextStartRow, c.ids))
    && ExactlyPicked(store, parser, places, test, 0, |places|,
                     Matching(StoreRows(store, parser, f), 0, |StoreRows(store, parser, f)|))
  }

  lemma MatchingPicks(store: PartitionStore, parser: Parser, f: Filter, test: ParsedRow -> bool, places: seq<Place>,
      lo: nat, hi: nat)
    requires forall row :: MatchesRow(row, f) <==> test(row)
    requires Lists(store, parser, Place(0, 0), places) && RowsAt(store, parser, f, places, StoreRows(store, parser, f))
    requires lo <= hi <= |places|
    ensures ExactlyPicked(store, parser, places, test, lo, hi, Matching(StoreRows(store, parser, f), lo, hi))
  {
    var rows := StoreRows(store, parser, f);
    MatchingIsExact(rows, lo, hi);
    forall k: nat | k < |places| ensures rows[k].Some? <==> Picked(store, parser, places, test, k) {
    }
  }

  lemma FilterSelects(store: PartitionStore, parser: Parser, f: Filter, test: ParsedRow -> bool)
    returns (places: seq<Place>)
    requires forall row :: MatchesRow(row, f) <==> test(row)
    ensures Selects(store, parser, f, test, places)
  {
    places := StoreRowsAreItsLines(store, parser, f);
    var rows := StoreRows(store, parser, f);
    forall startRow: nat, limit: nat, budget: nat | startRow <= |places| && limit > 0
      ensures var c := ScanFrom(rows, startRow, limit, budget);
        ExactlyPicked(store, parser, places, test, startRow, c.nextStartRow, c.ids)
    {
      ScanIsFilterOfPassedRows(rows, startRow, limit, budget);
      MatchingPicks(store, parser, f, test, places, startRow, ScanFrom(rows, startRow, limit, budget).nextStartRow);
    }
    MatchingPicks(store, parser, f, test, places, 0, |places|);
  }

  /** A query on one field selects exactly the rows with that field in the range. */
  lemma PickupQuery(store: PartitionStore, parser: Parser, lo: int, hi: int) returns (places: seq<Place>)
    ensures var f := ANYTHING.(pickup := Some(Range(lo, hi)));
      Selects(store, parser, f, (row: ParsedRow) => lo <= row.pickupDatetime <= hi, places)
  {
    var f := ANYTHING.(pickup := Some(Range(lo, hi)));
    forall row: ParsedRow ensures MatchesRow(row, f) <==> lo <= row.pickupDatetime <= hi {
      PickupCondition(row, lo, hi);
    }
    places := FilterSelects(store, parser, f, (row: ParsedRow) => lo <= row.pickupDatetime <= hi);
  }

  lemma DropoffQuery(store: PartitionStore, parser: Parser, lo: int, hi: int) returns (places: seq<Place>)
    ensures var f := ANYTHING.(dropoff := Some(Range(lo, hi)));
      Selects(store, parser, f, (row: ParsedRow) => lo <= row.dropoffDatetime <= hi, places)
  {
    var f := ANYTHING.(dropoff := Some(Range(lo, hi)));
    forall row: ParsedRow ensures MatchesRow(row, f) <==> lo <= row.dropoffDatetime <= hi {
      DropoffCondition(row, lo, hi);
    }
    places := FilterSelects(store, parser, f, (row: ParsedRow) => lo <= row.dropoffDatetime <= hi);
  }

  lemma DistanceQuery(store: PartitionStore, parser: Parser, lo: real, hi: real) returns (places: seq<Place>)
    ensures var f := ANYTHING.(distance := Some(Range(lo, hi)));
      Selects(store, parser, f, (row: ParsedRow) => lo <= row.tripDistance <= hi, places)
  {
    var f := ANYTHING.(distance := Some(Range(lo, hi)));
    forall row: ParsedRow ensures MatchesRow(row, f) <==> lo <= row.tripDistance <= hi {
      DistanceCondition(row, lo, hi);
    }
    places := FilterSelects(store, parser, f, (row: ParsedRow) => lo <= row.tripDistance <= hi);
  }

  lemma TipQuery(store: PartitionStore, parser: Parser, lo: int, hi: int) returns (places: seq<Place>)
    ensures var f := ANYTHING.(tipAmount := Some(Range(lo, hi)));
      Selects(store, parser, f, (row: ParsedRow) => lo <= row.tipAmountCents <= hi, places)
  {
    var f := ANYTHING.(tipAmount := Some(Range(lo, hi)));
    forall row: ParsedRow ensures MatchesRow(row, f) <==> lo <= row.tipAmountCents <= hi {
      TipCondition(row, lo, hi);
    }
    places := FilterSelects(store, parser, f, (row: ParsedRow) => lo <= row.tipAmountCents <= hi);
  }

  lemma TotalQuery(store: PartitionStore, parser: Parser, lo: int, hi: int) returns (places: seq<Place>)
    ensures var f := ANYTHING.(totalAmount := Some(Range(lo, hi)));
      Selects(store, parser, f, (row: ParsedRow) => lo <= row.totalAmountCents <= hi, places)
  {
    var f := ANYTHING.(totalAmount := Some(Range(lo, hi)));
    forall row: ParsedRow ensures MatchesRow(row, f) <==> lo <= row.totalAmountCents <= hi {
      TotalCondition(row, lo, hi);
    }
    places := FilterSelects(store, parser, f, (row: ParsedRow) => lo <= row.totalAmountCents <= hi);
  }

  lemma PaymentQuery(store: PartitionStore, parser: Parser, wanted: int) returns (places: seq<Place>)
    ensures var f := ANYTHING.(paymentType := Some(wanted));
      Selects(store, parser, f, (row: ParsedRow) => row.paymentType == wanted, places)
  {
    var f := ANYTHING.(paymentType := Some(wanted));
    forall row: ParsedRow ensures MatchesRow(row, f) <==> row.paymentType == wanted {
      PaymentCondition(row, wanted);
    }
    places := FilterSelects(store, parser, f, (row: ParsedRow) => row.paymentType == wanted);
  }

  // ----- sizes that are left out, and references

  /** A chunk size of 0 sets no limit, and a budget of 0 stands for 50000 rows. */
  lemma SizesLeftOut(rows: seq<Row>, startRow: nat)
    requires startRow <= |rows| < 0x1_0000_0000_0000_0000
    ensures ScanFrom(rows, startRow, OrElse(0, SIZE_MAX), OrElse(0, SCAN_ROW_BUDGET)).ids
         == Matching(rows, startRow, Min(|rows|, startRow + 50000))
    ensures forall size: nat :: size > 0 ==> OrElse(size, SIZE_MAX) == size
  {
    ScanTakes(rows, startRow, SIZE_MAX, SCAN_ROW_BUDGET);
    ScanIsFilterOfPassedRows(rows, startRow, SIZE_MAX, SCAN_ROW_BUDGET);
    var c, end := ScanFrom(rows, startRow, SIZE_MAX, SCAN_ROW_BUDGET), Min(|rows|, startRow + 50000);
    MatchingWithin(rows, startRow, c.nextStartRow);
  }

  /** The result of a worker names, for every trip, its node and the row it was read from. */
  lemma ResultNamesItsRows(rows: seq<Row>, node: NodeId, startRow: nat, limit: nat, budget: nat)
    requires startRow <= |rows| && limit > 0
    ensures var q := LocalResult(node, ScanFrom(rows, startRow, limit, budget));
      && |q.matchedRows| == |q.trips| == |q.sources| == q.rowsMatched == q.rowsEmitted && q.rowsSkipped == 0
      && forall k :: 0 <= k < |q.trips| ==>
        var at := q.matchedRows[k].localRowId;
        && q.matchedRows[k].nodeId == node == q.sources[k]
        && startRow <= at < |rows| && rows[at] == Some(q.trips[k])
        && (forall j :: 0 <= j < k ==> q.matchedRows[j].localRowId < at)
  {
    var c := ScanFrom(rows, startRow, limit, budget);
    ScanIsFilterOfPassedRows(rows, startRow, limit, budget);
    MatchingIsExact(rows, startRow, c.nextStartRow);
  }
}
