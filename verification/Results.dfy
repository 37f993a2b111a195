/** Values that travel between nodes: trips, row references and query results. */
module Results {

  type NodeId = string

  /** The largest value of the 64-bit size type. */
  const SIZE_MAX: nat := 0xFFFF_FFFF_FFFF_FFFF

  datatype Option<+T> = None | Some(value: T)

  /** One delivered trip. Money is in cents, times are in epoch milliseconds. */
  datatype TaxiTrip = TaxiTrip(
    pickupEpochMs: int,
    dropoffEpochMs: int,
    paymentType: nat,
    tripDistance: real,
    tipAmountCents: int,
    totalAmountCents: int
  )

  datatype RowRef = RowRef(nodeId: NodeId, localRowId: nat)

  /** A logical row of a shard as one query sees it: the trip to deliver, or
      None when the line does not parse or the filter rejects it. */
  type Row = Option<TaxiTrip>

  /** The shard of every node, already classified by the query at hand. */
  type Shards = NodeId -> seq<Row>

  /** A partial or cached result; `trips` and `sources` are parallel lists. */
  datatype QueryResult = QueryResult(
    rowsScanned: nat,
    rowsMatched: nat,
    matchedRows: seq<RowRef>,
    trips: seq<TaxiTrip>,
    sources: seq<NodeId>,
    rowsSkipped: nat,
    rowsEmitted: nat,
    nextStartRow: nat,
    hasMore: bool
  ) {

    function Merge(other: QueryResult): QueryResult {
      QueryResult(
        rowsScanned + other.rowsScanned,
        rowsMatched + other.rowsMatched,
        matchedRows + other.matchedRows,
        trips + other.trips,
        sources + other.sources,
        rowsSkipped + other.rowsSkipped,
        rowsEmitted + other.rowsEmitted,
        if other.nextStartRow > nextStartRow then other.nextStartRow else nextStartRow,
        hasMore || other.hasMore)
    }

    /** Drops the cached payload and keeps the running counters. */
    function Cleared(): QueryResult {
      this.(matchedRows := [], trips := [], sources := [], rowsSkipped := 0, rowsEmitted := 0)
    }
  }

  /** A merged result has the rows of the first and then those of the second, in their orders, with their labels
      and references, and counts what both count; `nextStartRow` is the larger, and either may have more. */
  lemma MergeGathers(q: QueryResult, r: QueryResult)
    ensures var m := q.Merge(r);
      && |m.trips| == |q.trips| + |r.trips| && q.trips <= m.trips && m.trips[|q.trips|..] == r.trips
      && |m.sources| == |q.sources| + |r.sources| && q.sources <= m.sources && m.sources[|q.sources|..] == r.sources
      && |m.matchedRows| == |q.matchedRows| + |r.matchedRows|
      && q.matchedRows <= m.matchedRows && m.matchedRows[|q.matchedRows|..] == r.matchedRows
      && m.rowsScanned - q.rowsScanned == r.rowsScanned && m.rowsMatched - q.rowsMatched == r.rowsMatched
      && m.rowsSkipped - q.rowsSkipped == r.rowsSkipped && m.rowsEmitted - q.rowsEmitted == r.rowsEmitted
      && m.nextStartRow >= q.nextStartRow && m.nextStartRow >= r.nextStartRow
      && (m.nextStartRow == q.nextStartRow || m.nextStartRow == r.nextStartRow)
      && (!m.hasMore <==> !q.hasMore && !r.hasMore)
  {
  }

  /** Clearing forgets the rows of the window and what was emitted into it, and nothing else. */
  lemma ClearedForgetsRows(q: QueryResult)
    ensures var c := q.Cleared();
      && |c.trips| == |c.sources| == |c.matchedRows| == c.rowsSkipped == c.rowsEmitted == 0
      && c.rowsScanned == q.rowsScanned && c.rowsMatched == q.rowsMatched
      && c.nextStartRow == q.nextStartRow && c.hasMore == q.hasMore
  {
  }

  const EMPTY_RESULT := QueryResult(0, 0, [], [], [], 0, 0, 0, false)

  function Min(a: nat, b: nat): nat {
    if a <= b then a else b
  }

  lemma {:induction false} TimesIsMonotone(a: nat, b: nat, d: nat)
    requires a <= b
    ensures a * d <= b * d
  {
    if a < b {
      TimesIsMonotone(a, b - 1, d);
    }
  }
}
