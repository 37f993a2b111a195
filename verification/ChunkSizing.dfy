/** Adaptive chunk sizes: how coordinator pressure bounds one fetch. */
module ChunkSizing {
  import opened Results

  const SMALL_CHUNK_SIZE: nat := 500
  const DEFAULT_CHUNK_SIZE: nat := 1000
  const LARGE_CHUNK_SIZE: nat := 5000
  const PRESSURE_ROW_LIMIT: nat := 10000
  const PRESSURE_REQUEST_LIMIT: nat := 10
  const SCAN_ROW_BUDGET: nat := 50000

  /** Pressure from active requests and cached rows, capped at 1. */
  function PressureRatio(activeRequests: nat, cachedRows: nat): real {
    var requestPressure := activeRequests as real / PRESSURE_REQUEST_LIMIT as real;
    var rowPressure := cachedRows as real / PRESSURE_ROW_LIMIT as real;
    var larger := if requestPressure < rowPressure then rowPressure else requestPressure;
    if larger < 1.0 then larger else 1.0
  }

  function Recommended(pressure: real): nat {
    if pressure >= 0.80 then SMALL_CHUNK_SIZE
    else if pressure <= 0.20 then LARGE_CHUNK_SIZE
    else DEFAULT_CHUNK_SIZE
  }

  /** A request of 0 rows leaves the choice to the coordinator. */
  function AdaptiveChunk(requested: nat, pressure: real): (r: nat)
    ensures 0 < r <= LARGE_CHUNK_SIZE
    ensures requested > 0 ==> r <= requested
  {
    if requested == 0 then Recommended(pressure) else Min(requested, Recommended(pressure))
  }

  /** The chunk never grows as requests or cached rows pile up. */
  lemma MoreLoadNeverMeansLargerChunk(requested: nat, active: nat, active': nat, cached: nat, cached': nat)
    requires active <= active' && cached <= cached'
    ensures AdaptiveChunk(requested, PressureRatio(active', cached'))
         <= AdaptiveChunk(requested, PressureRatio(active, cached))
  {
    assert PressureRatio(active, cached) <= PressureRatio(active', cached');
  }

  /** The size that a load calls for, in numbers. */
  lemma SizeOfLoad(active: nat, cached: nat)
    ensures AdaptiveChunk(0, PressureRatio(active, cached))
         == if active >= 8 || cached >= 8000 then 500 else if active <= 2 && cached <= 2000 then 5000 else 1000
  {
    ChunkThresholds(active, cached);
  }

  /** A caller who names a number of rows gets that number or the size of the load, whichever is smaller. */
  lemma ChunkIsLesser(requested: nat, active: nat, cached: nat)
    requires requested > 0
    ensures var size := AdaptiveChunk(0, PressureRatio(active, cached));
      var chunk := AdaptiveChunk(requested, PressureRatio(active, cached));
      && chunk <= requested && chunk <= size && (chunk == requested || chunk == size)
      && (chunk < requested ==> chunk == 500 || chunk == 1000 || chunk == 5000)
  {
    SizeOfLoad(active, cached);
  }

  /** The load at which each size is used, in whole requests and rows. */
  lemma ChunkThresholds(active: nat, cached: nat)
    ensures Recommended(PressureRatio(active, cached)) == SMALL_CHUNK_SIZE <==> active >= 8 || cached >= 8000
    ensures Recommended(PressureRatio(active, cached)) == LARGE_CHUNK_SIZE <==> active <= 2 && cached <= 2000
  {
    assert PRESSURE_REQUEST_LIMIT as real == 10.0 && PRESSURE_ROW_LIMIT as real == 10000.0;
  }
}
