/** The coordinator-side record of one query, updated in place. */
module RequestStates {
  import opened Results
  import opened Graph
  import opened Protocol
  import opened LocalQueryEngine

  /** The query as it travels: its filter and the nodes it has visited or scheduled. */
  datatype QueryRequest = QueryRequest(filter: Filter, visitedNodeIds: seq<NodeId>) {

    predicate HasVisitedNode(n: NodeId) {
      n in visitedNodeIds
    }

    /** Marking twice leaves one entry. */
    function MarkVisitedNode(n: NodeId): (r: QueryRequest)
      ensures r.filter == filter
      ensures Elements(r.visitedNodeIds) == Elements(visitedNodeIds) + {n}
      ensures NoDuplicates(visitedNodeIds) ==> NoDuplicates(r.visitedNodeIds)
    {
      if HasVisitedNode(n) then this else this.(visitedNodeIds := visitedNodeIds + [n])
    }
  }

  /** Progress on one worker, with the id the child gave to the sub-query. */
  datatype WorkerProgress = WorkerProgress(
    nextStartRow: nat,
    hasMore: bool,
    completed: bool,
    remoteRequestId: nat,
    submitted: bool
  ) {
    function View(): Progress {
      Progress(nextStartRow, hasMore, completed, submitted)
    }
  }

  const NEW_WORKER := WorkerProgress(0, true, false, 0, false)

  class RequestState {
    const queryId: nat
    const request: QueryRequest
    var state: Phase
    var aggregatedResult: QueryResult
    var nextUnreadIndex: nat
    var fetchRound: nat
    var expectedWorkers: nat
    var completedWorkers: nat
    var workerProgress: map<NodeId, WorkerProgress>

    constructor (queryId: nat, request: QueryRequest)
      ensures this.queryId == queryId && this.request == request
      ensures state == Pending && aggregatedResult == EMPTY_RESULT && nextUnreadIndex == 0 && fetchRound == 0
      ensures expectedWorkers == 0 && completedWorkers == 0 && workerProgress == map[]
      ensures AllWorkersCompleted()
    {
      this.queryId, this.request := queryId, request;
      state, aggregatedResult, nextUnreadIndex, fetchRound := Pending, EMPTY_RESULT, 0, 0;
      expectedWorkers, completedWorkers, workerProgress := 0, 0, map[];
    }

    predicate IsTerminal()
      reads this`state
    {
      state.Completed? || state.Cancelled? || state.TimedOut?
    }

    method MergePartialResult(partial: QueryResult)
      modifies this`aggregatedResult
      ensures aggregatedResult == old(aggregatedResult).Merge(partial)
    {
      aggregatedResult := aggregatedResult.Merge(partial);
    }

    method ClearAggregatedRows()
      modifies this`aggregatedResult, this`nextUnreadIndex
      ensures aggregatedResult == old(aggregatedResult).Cleared() && nextUnreadIndex == 0
    {
      aggregatedResult := aggregatedResult.(matchedRows := [], trips := [], sources := []);
      aggregatedResult := aggregatedResult.(rowsSkipped := 0, rowsEmitted := 0);
      nextUnreadIndex := 0;
    }

    predicate ShouldFetchRemoteFirst()
      reads this
    {
      fetchRound % 2 == 1
    }

    /** Every tracked worker is completed; without any, the plain counters decide. */
    predicate AllWorkersCompleted()
      reads this
    {
      if workerProgress.Keys != {} then forall n :: n in workerProgress ==> workerProgress[n].completed
      else completedWorkers >= expectedWorkers
    }

    /** A worker that is already tracked keeps its progress. */
    method InitializeWorker(n: NodeId)
      modifies this`workerProgress
      ensures workerProgress == if n in old(workerProgress) then old(workerProgress)
        else old(workerProgress)[n := NEW_WORKER]
    {
      if n !in workerProgress {
        workerProgress := workerProgress[n := NEW_WORKER];
      }
    }

    method UpdateWorkerProgress(n: NodeId, nextStartRow: nat, hasMore: bool)
      requires n in workerProgress
      modifies this`workerProgress
      ensures workerProgress
        == old(workerProgress)[n :=
        old(workerProgress)[n].(nextStartRow := nextStartRow, hasMore := hasMore, completed := !hasMore)]
    {
      var progress := workerProgress[n];
      progress := progress.(nextStartRow := nextStartRow);
      progress := progress.(hasMore := hasMore);
      progress := progress.(completed := !hasMore);
      workerProgress := workerProgress[n := progress];
    }
  }
}
