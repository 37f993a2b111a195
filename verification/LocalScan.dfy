/** The bounded, resumable scan of one shard, and the plain filter it refines. */
module LocalScan {
  import opened Results

  /** Row numbers of the matching rows in [lo, hi), increasing: the plain filter. */
  function Matching(rows: seq<Row>, lo: nat, hi: nat): seq<nat>
    requires lo <= hi <= |rows|
    decreases hi - lo
  {
    if lo == hi then []
    else (if rows[lo].Some? then [lo] else []) + Matching(rows, lo + 1, hi)
  }

  /** The trips of the matching rows in [lo, hi), in row order. */
  function TripsIn(rows: seq<Row>, lo: nat, hi: nat): seq<TaxiTrip>
    requires lo <= hi <= |rows|
    decreases hi - lo
  {
    if lo == hi then []
    else (if rows[lo].Some? then [rows[lo].value] else []) + TripsIn(rows, lo + 1, hi)
  }

  /** Everything a full filter of the shard delivers. */
  function AllTrips(rows: seq<Row>): seq<TaxiTrip> {
    TripsIn(rows, 0, |rows|)
  }

  datatype Chunk = Chunk(
    ids: seq<nat>,
    trips: seq<TaxiTrip>,
    rowsScanned: nat,
    nextStartRow: nat,
    hasMore: bool
  )

  /** One bounded scan that starts at row `at`: it stops after `limit` matches
      or once `budget` rows were read and another row exists. */
  function ScanFrom(rows: seq<Row>, at: nat, limit: nat, budget: nat): Chunk
    requires limit > 0
    decreases |rows| - at
  {
    if at >= |rows| then Chunk([], [], 0, |rows|, false)
    else if budget == 0 then Chunk([], [], 0, at, true)
    else if rows[at].None? then
      var rest := ScanFrom(rows, at + 1, limit, budget - 1);
      rest.(rowsScanned := rest.rowsScanned + 1)
    else if limit == 1 then Chunk([at], [rows[at].value], 1, at + 1, true)
    else
      var rest := ScanFrom(rows, at + 1, limit - 1, budget - 1);
      rest.(ids := [at] + rest.ids,
            trips := [rows[at].value] + rest.trips,
            rowsScanned := rest.rowsScanned + 1)
  }

  /** What one scan returns: exactly the matches of the rows it passed over,
      within both bounds, and it says `hasMore` only for one of the two reasons. */
  lemma {:induction false} ScanIsFilterOfPassedRows(rows: seq<Row>, at: nat, limit: nat, budget: nat)
    requires limit > 0 && at <= |rows|
    ensures var c := ScanFrom(rows, at, limit, budget);
      && at <= c.nextStartRow <= |rows|
      && c.ids == Matching(rows, at, c.nextStartRow)
      && c.trips == TripsIn(rows, at, c.nextStartRow)
      && |c.trips| == |c.ids| <= limit
      && c.rowsScanned == c.nextStartRow - at <= budget
      && (!c.hasMore ==> c.nextStartRow == |rows|)
      && (c.hasMore ==> |c.ids| == limit || (c.rowsScanned == budget && c.nextStartRow < |rows|))
    decreases |rows| - at
  {
    if at < |rows| && budget > 0 {
      if rows[at].None? {
        ScanIsFilterOfPassedRows(rows, at + 1, limit, budget - 1);
      } else if limit > 1 {
        ScanIsFilterOfPassedRows(rows, at + 1, limit - 1, budget - 1);
      }
    }
  }

  /** How much one scan returns: as many matches as the limit allows, of those among the next `budget` rows. */
  lemma {:induction false} ScanTakes(rows: seq<Row>, at: nat, limit: nat, budget: nat)
    requires limit > 0 && at <= |rows|
    ensures var end := Min(|rows|, at + budget);
      |ScanFrom(rows, at, limit, budget).ids| == Min(limit, |Matching(rows, at, end)|)
    decreases |rows| - at
  {
    if at < |rows| && budget > 0 {
      if rows[at].None? {
        ScanTakes(rows, at + 1, limit, budget - 1);
      } else if limit > 1 {
        ScanTakes(rows, at + 1, limit - 1, budget - 1);
      }
    }
  }

  lemma {:induction false} MatchingSplits(rows: seq<Row>, lo: nat, mid: nat, hi: nat)
    requires lo <= mid <= hi <= |rows|
    ensures Matching(rows, lo, hi) == Matching(rows, lo, mid) + Matching(rows, mid, hi)
    ensures TripsIn(rows, lo, hi) == TripsIn(rows, lo, mid) + TripsIn(rows, mid, hi)
    decreases mid - lo
  {
    if lo < mid {
      MatchingSplits(rows, lo + 1, mid, hi);
      Regroup(if rows[lo].Some? then [lo] else [], Matching(rows, lo + 1, mid), Matching(rows, mid, hi));
      Regroup(if rows[lo].Some? then [rows[lo].value] else [], TripsIn(rows, lo + 1, mid), TripsIn(rows, mid, hi));
    }
  }

  lemma {:induction false} MatchingWithin(rows: seq<Row>, lo: nat, hi: nat)
    requires lo <= hi <= |rows|
    ensures |Matching(rows, lo, hi)| <= hi - lo
    decreases hi - lo
  {
    if lo < hi {
      MatchingWithin(rows, lo + 1, hi);
    }
  }

  lemma Regroup<T>(a: seq<T>, b: seq<T>, c: seq<T>)
    ensures a + (b + c) == (a + b) + c
  {
  }

  /** `Matching` is the increasing list of all matching rows of the interval, and nothing else. */
  lemma {:induction false} MatchingIsExact(rows: seq<Row>, lo: nat, hi: nat)
    requires lo <= hi <= |rows|
    ensures forall k :: 0 <= k < |Matching(rows, lo, hi)| ==>
      lo <= Matching(rows, lo, hi)[k] < hi && rows[Matching(rows, lo, hi)[k]].Some?
    ensures forall j, k :: 0 <= j < k < |Matching(rows, lo, hi)| ==>
      Matching(rows, lo, hi)[j] < Matching(rows, lo, hi)[k]
    ensures forall i :: lo <= i < hi && rows[i].Some? ==> i in Matching(rows, lo, hi)
    ensures |Matching(rows, lo, hi)| == |TripsIn(rows, lo, hi)|
    ensures forall k :: 0 <= k < |Matching(rows, lo, hi)| ==>
      TripsIn(rows, lo, hi)[k] == rows[Matching(rows, lo, hi)[k]].value
  {
    MatchingIsOrdered(rows, lo, hi);
    MatchingHasTrips(rows, lo, hi);
    forall i | lo <= i < hi && rows[i].Some? ensures i in Matching(rows, lo, hi) {
      MatchingHas(rows, lo, hi, i);
    }
  }

  lemma {:induction false} MatchingIsOrdered(rows: seq<Row>, lo: nat, hi: nat)
    requires lo <= hi <= |rows|
    ensures forall k :: 0 <= k < |Matching(rows, lo, hi)| ==>
      lo <= Matching(rows, lo, hi)[k] < hi && rows[Matching(rows, lo, hi)[k]].Some?
    ensures forall j, k :: 0 <= j < k < |Matching(rows, lo, hi)| ==>
      Matching(rows, lo, hi)[j] < Matching(rows, lo, hi)[k]
    decreases hi - lo
  {
    if lo < hi {
      MatchingIsOrdered(rows, lo + 1, hi);
    }
  }

  lemma {:induction false} MatchingHas(rows: seq<Row>, lo: nat, hi: nat, i: nat)
    requires lo <= i < hi <= |rows| && rows[i].Some?
    ensures i in Matching(rows, lo, hi)
    decreases hi - lo
  {
    if lo < i {
      MatchingHas(rows, lo + 1, hi, i);
    }
  }

  lemma {:induction false} MatchingHasTrips(rows: seq<Row>, lo: nat, hi: nat)
    requires lo <= hi <= |rows|
    ensures |Matching(rows, lo, hi)| == |TripsIn(rows, lo, hi)|
    ensures forall k :: 0 <= k < |Matching(rows, lo, hi)| ==>
      Matching(rows, lo, hi)[k] < |rows| && rows[Matching(rows, lo, hi)[k]].Some?
    ensures forall k :: 0 <= k < |Matching(rows, lo, hi)| ==>
      TripsIn(rows, lo, hi)[k] == rows[Matching(rows, lo, hi)[k]].value
    decreases hi - lo
  {
    if lo < hi {
      MatchingHasTrips(rows, lo + 1, hi);
    }
  }

  /** Sizes one caller passes for one scan. */
  datatype Sizes = Sizes(limit: nat, budget: nat)

  /** A caller that feeds `nextStartRow` back while `hasMore`, with sizes of its own choice per call. */
  function Resume(rows: seq<Row>, at: nat, calls: seq<Sizes>): Chunk
    requires forall i :: 0 <= i < |calls| ==> calls[i].limit > 0
    decreases |calls|
  {
    if calls == [] then Chunk([], [], 0, at, true)
    else
      var first := ScanFrom(rows, at, calls[0].limit, calls[0].budget);
      if !first.hasMore then first
      else
        var rest := Resume(rows, first.nextStartRow, calls[1..]);
        Chunk(first.ids + rest.ids, first.trips + rest.trips,
              first.rowsScanned + rest.rowsScanned, rest.nextStartRow, rest.hasMore)
  }

  lemma {:induction false} ResumeIsFilter(rows: seq<Row>, at: nat, calls: seq<Sizes>)
    requires at <= |rows|
    requires forall i :: 0 <= i < |calls| ==> calls[i].limit > 0
    ensures var r := Resume(rows, at, calls);
      && at <= r.nextStartRow <= |rows|
      && r.ids == Matching(rows, at, r.nextStartRow)
      && r.trips == TripsIn(rows, at, r.nextStartRow)
      && r.rowsScanned == r.nextStartRow - at
      && (!r.hasMore ==> r.nextStartRow == |rows|)
    decreases |calls|
  {
    if calls != [] {
      var first := ScanFrom(rows, at, calls[0].limit, calls[0].budget);
      ScanIsFilterOfPassedRows(rows, at, calls[0].limit, calls[0].budget);
      if first.hasMore {
        ResumeIsFilter(rows, first.nextStartRow, calls[1..]);
        MatchingSplits(rows, at, first.nextStartRow, Resume(rows, first.nextStartRow, calls[1..]).nextStartRow);
      }
    }
  }

  /** A resumed scan refines the one-pass filter: whatever sizes each call
      uses, once `hasMore` is false the row numbers, the trips and both counters
      are those of one pass over the whole shard. */
  lemma {:induction false} ResumedScanRefinesFilter(rows: seq<Row>, calls: seq<Sizes>)
    requires forall i :: 0 <= i < |calls| ==> calls[i].limit > 0
    ensures var r := Resume(rows, 0, calls);
      && r.ids <= Matching(rows, 0, |rows|)
      && (!r.hasMore ==>
            && r.ids == Matching(rows, 0, |rows|)
            && r.trips == AllTrips(rows)
            && r.rowsScanned == |rows|)
  {
    ResumeIsFilter(rows, 0, calls);
    MatchingSplits(rows, 0, Resume(rows, 0, calls).nextStartRow, |rows|);
  }

  /** A call that says `hasMore` always moved the cursor. */
  lemma HasMoreAdvances(rows: seq<Row>, at: nat, limit: nat, budget: nat)
    requires limit > 0 && budget > 0 && at <= |rows|
    requires ScanFrom(rows, at, limit, budget).hasMore
    ensures at < ScanFrom(rows, at, limit, budget).nextStartRow <= |rows|
  {
    ScanIsFilterOfPassedRows(rows, at, limit, budget);
    assert Matching(rows, at, at) == [];
  }

  /** A scan comes back empty-handed and finished exactly when no matching row is left and the
      rows that are left fit the budget. */
  lemma {:induction false} EmptyChunkIff(rows: seq<Row>, at: nat, limit: nat, budget: nat)
    requires limit > 0 && at <= |rows|
    ensures var c := ScanFrom(rows, at, limit, budget);
      c.ids == [] && !c.hasMore <==> Matching(rows, at, |rows|) == [] && |rows| - at <= budget
    decreases |rows| - at
  {
    if at < |rows| && budget > 0 && rows[at].None? {
      EmptyChunkIff(rows, at + 1, limit, budget - 1);
    }
  }

  /** `hasMore` does not promise another row: the call after one that was stopped by its limit or budget is
      empty and final exactly when the first call had already returned the last matching row of the shard. */
  lemma HasMoreThenNothing(rows: seq<Row>, at: nat, limit: nat, budget: nat, limit': nat, budget': nat)
    requires limit > 0 && limit' > 0 && at <= |rows| && ScanFrom(rows, at, limit, budget).hasMore
    requires |rows| - ScanFrom(rows, at, limit, budget).nextStartRow <= budget'
    ensures var c := ScanFrom(rows, at, limit, budget);
      var d := ScanFrom(rows, c.nextStartRow, limit', budget');
      d.ids == [] && !d.hasMore <==> c.ids == Matching(rows, at, |rows|)
  {
    var c := ScanFrom(rows, at, limit, budget);
    ScanIsFilterOfPassedRows(rows, at, limit, budget);
    MatchingSplits(rows, at, c.nextStartRow, |rows|);
    EmptyChunkIff(rows, c.nextStartRow, limit', budget');
    assert Matching(rows, c.nextStartRow, |rows|) == [] <==> c.ids == Matching(rows, at, |rows|) by {
      assert |Matching(rows, at, |rows|)| == |c.ids| + |Matching(rows, c.nextStartRow, |rows|)|;
      assert c.ids + [] == c.ids;
    }
  }

  /** Number of calls a caller makes with fixed sizes until `hasMore` is false. */
  function CallsNeeded(rows: seq<Row>, at: nat, limit: nat, budget: nat): nat
    requires limit > 0 && budget > 0 && at <= |rows|
    decreases |rows| - at
  {
    var c := ScanFrom(rows, at, limit, budget);
    if !c.hasMore then 1
    else
      HasMoreAdvances(rows, at, limit, budget);
      1 + CallsNeeded(rows, c.nextStartRow, limit, budget)
  }

  /** Splits the calls that said `hasMore` into those stopped by the budget and those stopped by the limit. */
  lemma {:induction false} StopReasons(rows: seq<Row>, at: nat, limit: nat, budget: nat)
      returns (byBudget: nat, byLimit: nat)
    requires limit > 0 && budget > 0 && at <= |rows|
    ensures CallsNeeded(rows, at, limit, budget) == byBudget + byLimit + 1
    ensures byBudget * budget <= |rows| - at
    ensures byLimit * limit <= |Matching(rows, at, |rows|)|
    decreases |rows| - at
  {
    var c := ScanFrom(rows, at, limit, budget);
    byBudget, byLimit := 0, 0;
    if c.hasMore {
      HasMoreAdvances(rows, at, limit, budget);
      byBudget, byLimit := StopReasons(rows, c.nextStartRow, limit, budget);
      OneStop(rows, at, limit, budget);
      if |c.ids| == limit {
        OneMoreTimes(byLimit, limit);
        byLimit := byLimit + 1;
      } else {
        OneMoreTimes(byBudget, budget);
        byBudget := byBudget + 1;
      }
    }
  }

  /** A call that says `hasMore` used up its limit of the matching rows ahead, or its budget of the rows ahead. */
  lemma OneStop(rows: seq<Row>, at: nat, limit: nat, budget: nat)
    requires limit > 0 && budget > 0 && at <= |rows| && ScanFrom(rows, at, limit, budget).hasMore
    ensures var c := ScanFrom(rows, at, limit, budget);
      && at <= c.nextStartRow <= |rows|
      && |Matching(rows, at, |rows|)| == |c.ids| + |Matching(rows, c.nextStartRow, |rows|)|
      && (|c.ids| == limit || c.nextStartRow == at + budget)
  {
    ScanIsFilterOfPassedRows(rows, at, limit, budget);
    MatchingSplits(rows, at, ScanFrom(rows, at, limit, budget).nextStartRow, |rows|);
  }

  lemma OneMoreTimes(n: nat, d: nat)
    ensures (n + 1) * d == n * d + d
  {
  }

  lemma QuotientBound(k: nat, d: nat, n: nat)
    requires d > 0 && k * d <= n
    ensures k <= n / d
  {
    if k > n / d {
      TimesIsMonotone(n / d + 1, k, d);
    }
  }

  /** With N logical rows of which M match, limit c and budget b, the scan
      is over after at most N/b + M/c + 1 calls. */
  lemma CallBound(rows: seq<Row>, limit: nat, budget: nat)
    requires limit > 0 && budget > 0
    ensures CallsNeeded(rows, 0, limit, budget) <= |rows| / budget + |AllTrips(rows)| / limit + 1
  {
    var byBudget, byLimit := StopReasons(rows, 0, limit, budget);
    MatchingIsExact(rows, 0, |rows|);
    QuotientBound(byBudget, budget, |rows|);
    QuotientBound(byLimit, limit, |AllTrips(rows)|);
  }
}
