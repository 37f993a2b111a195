# Distributed taxi-trip queries: a verified model

The repository answers filter queries over sharded taxi-trip files. A client submits a query
at an entry node; each node scans its own shard in bounded, resumable chunks and forwards the
query along a directed overlay; rows flow back on demand, one bounded window at a time. This
project models that system in Dafny and proves what a client, a node and the overlay can rely on.

## How the model is built

| file | part of the system |
|---|---|
| Results.dfy, ChunkSizing.dfy | trips, results and their merge; adaptive chunk sizes |
| LocalScan.dfy, LocalQueryEngine.dfy | the resumable scan of one shard, the counting pass, the worker that labels rows |
| QueryMeaning.dfy | what a filter accepts, which lines of a store are rows, and what scan and count select from them |
| Graph.dfy, OverlayConfig.dfy, GuardCheck.dfy | walks and reachability; the overlay class with its inverse edge index, searches and validation; a decision whether an overlay asks no node twice |
| Forwarding.dfy | the tree of sub-requests that visited-list forwarding creates |
| Protocol.dfy | one fetch, on values: a request, its window and the sub-requests below it |
| ProtocolInvariants.dfy, ProtocolDelivery.dfy, ProtocolMultiplicity.dfy, ProtocolTermination.dfy, ProtocolCoverage.dfy | what every fetch and every run of fetches keeps |
| ProtocolSizes.dfy, ProtocolRounds.dfy | how much a fetch brings and hands out; local and remote work take turns |
| ProtocolAccounting.dfy | what holds of every request of the tree at once: windows, phases, and the books between parents and children |
| Renaming.dfy, ProtocolOrder.dfy | the order of what is received on overlays that ask a node several times |
| ProtocolReliability.dfy | which networks make a run without failures, that there are such runs, and when `done` is final |
| Network.dfy, NetworkCalls.dfy, NetworkRuns.dfy | all nodes with their own record tables, which name each other by ids: they do what the trees of requests say, for any number of clients |
| CoordinatorSpec.dfy | the load a coordinator's records make, and one refill step by step, on values |
| RequestState.dfy, RemoteQueryClient.dfy, QueryCoordinator.dfy | one node's coordinator as classes that update their records in place, proved to do what Protocol.dfy says |
| ServiceSpec.dfy, QueryService.dfy | a node's query service under any sequence of calls by any number of clients: on values, and against those classes |
| ParallelSelect.dfy | two-pass parallel selection under every interleaving |
| IngestDispatcher.dfy | FIFO shard queue and least-loaded dispatcher |
| TaxiTripParser.dfy, MoneyParser.dfy | CSV field splitting and decimal-to-cents parsing |

Points a reader needs:

- **A request tree.** Every sub-query creates its own record at the child (ids are minted
  fresh, so no record is shared), hence the requests of one client query form a tree. `Req` is
  that tree as a value. Before a child is submitted its `remote` is the state the submission will create.
- **Everything outside is an arbitrary `Env`.** A fetch takes the load of every node involved
  (`pressure`), and for every child call whether the submission is accepted and whether the fetch
  is undelivered, served with its reply lost, or served. Protocol theorems quantify over all of it.
  A cancel or timeout that reached a node is part of the `Env` of the next fetch there: a phase
  decides what a fetch does, and beside that it only counts in the node's load, which is arbitrary too.
  `ReliableRun` names the runs in which none of the calls that are made fails.
- **The entry node's load is not arbitrary.** The coordinator's own methods are proved to fetch
  under exactly the pressure that its records make at each step: `EnvOf` computes the whole `Env` of a
  fetch from the record, the other records' load and the network (`NetCall`), and the contracts of the
  in-place methods name no other unknown.
- **Many clients.** `ServiceSpec` runs any sequence of submissions, fetches, cancels and timeouts, by any
  clients, on the request table; each record's own calls form a run of the protocol. What one client can rely on in
  the middle of this is stated from its own operations alone: nobody stops its request, and the network is
  calm whenever it fetches (`Untroubled`).
- **One coordinator in place, its peers as values.** `QueryCoordinator` works on heap records;
  `RemoteQueryClient` stands for the other nodes, whose sub-requests advance by the same
  `Fetch`. That such trees are what separate tables of all nodes amount to, however many
  clients share them, is proved in `NetworkCalls` and `NetworkRuns`. Each process knows only its own outgoing edges; `overlay` is the union of all
  processes' edges, and the class reads only its own node's entry.
- **Done, not COMPLETED.** A record's phase becomes COMPLETED when all workers are exhausted,
  possibly with rows still unread (`ProtocolAccounting.DoneIsCompletedAndRead` says exactly how the two relate), so
  delivery is stated over the reply's `done`. The merged
  `hasMore` is sticky and decides nothing; per-worker progress does.
- **Where code and comments disagree.** Comments in the coordinator and the request class say
  the visited list keeps shared nodes from being queried twice. The list travels down paths only:
  on a diamond the shared node is asked twice (`Forwarding.DiamondAsksTwice`). The code is modelled as it is, and
  `Forwarding.AtMostOnceIffGuarded` says exactly for which overlays the promise holds.
- **One worker per process.** A server process registers exactly one worker, its own
  (basic/src/server/main.cpp), so a record tracks one local shard and its children.
- **Distinct children.** `DistinctChildren` is the check that configuration loading makes
  (basic/src/common/config.cc rejects duplicate neighbours).
- **Filters act on parsed rows.** A row is classified before it is narrowed to the delivered trip;
  the CSV parser of the scan is a parameter, and the six filter conditions are concrete.
- **Parallel blocks.** `schedule(static)` (section 2.9.2 of the OpenMP API 5.0) is taken to give
  both passes the same consecutive blocks in thread order.

## Model

| member | source | states |
|---|---|---|
| Forwarding.TreePositionsAreForwardPaths | basic/src/querycoordination/QueryCoordinator.cpp:717-772 | the requests created for a query sit exactly at the paths whose hops are not visited, not repeated and not children of an earlier hop; no forwarding path repeats a node |
| Forwarding.ScheduledInOrder | basic/src/querycoordination/QueryCoordinator.cpp:717-733 | the children that are asked keep the order of the child list |
| Forwarding.WalkHasForwardPath | basic/src/querycoordination/QueryCoordinator.cpp:735-747 | every walk from the entry can be short-cut, through its own nodes, to a forwarding path: a skipped child was scheduled higher up on the path |
| Forwarding.ForwardingCoversExactlyReachable | basic/src/querycoordination/QueryCoordinator.cpp:641-655 | on every overlay, cyclic ones included, a node is asked if and only if it is reachable from the entry |
| Forwarding.GuardedPathsUnique | basic/src/querycoordination/QueryCoordinator.cpp:735-772 | on a guarded overlay two forwarding paths to the same node are the same path |
| Forwarding.UnguardedAskedTwice | basic/src/querycoordination/QueryCoordinator.cpp:735-772 | a reachable node without a guarding parent is asked at least twice |
| Forwarding.AtMostOnceIffGuarded | basic/src/model/QueryRequest.hpp:67-82 | no node is asked twice if and only if every reachable node but the entry has a parent on every entry walk to its other parents |
| GuardCheck.IsGuarded | basic/src/model/QueryRequest.hpp:67-82 | decides the guard condition of any overlay, and with it whether the promise of the comment holds there |
| Forwarding.DiamondAsksTwice | basic/src/querycoordination/QueryCoordinator.cpp:741-747 | the promise of the comment fails on A to B and C, both to D |
| Forwarding.ShippedOverlayIsGuarded | basic/config/A.conf:6-7 | on the shipped nine-node overlay (the other edges are in basic/config/B.conf, D.conf and E.conf) no node is asked twice |
| LocalScan.ScanIsFilterOfPassedRows | basic/src/query/LocalQueryEngine.cpp:250-345 | one bounded scan returns exactly the matches of the rows it passed over, within both bounds, and says hasMore only when a bound stopped it |
| LocalScan.ScanTakes | basic/src/query/LocalQueryEngine.cpp:250-345 | a scan returns as many matches as the limit allows of those among the next rows of its budget |
| LocalScan.MatchingIsExact | basic/src/query/LocalQueryEngine.cpp:159-162 | the filter's list is increasing, contains every matching row and nothing else, and carries those rows' trips |
| LocalScan.ResumedScanRefinesFilter | basic/src/query/LocalQueryEngine.cpp:176-361 | feeding nextStartRow back, with any sizes per call, gives the one-pass filter's rows, trips and counters |
| LocalScan.HasMoreAdvances | basic/src/query/LocalQueryEngine.cpp:251-271 | a call that says hasMore moved the cursor |
| LocalScan.EmptyChunkIff | basic/src/query/LocalQueryEngine.cpp:250-345 | a scan is empty and final exactly when no matching row is left and the rows left fit the budget |
| LocalScan.HasMoreThenNothing | basic/src/query/LocalQueryEngine.cpp:324-345 | hasMore promises no further row: the next chunk is empty and final exactly when the last match was already returned |
| LocalScan.CallBound | basic/src/query/LocalQueryEngine.cpp:251-345 | with fixed sizes the scan ends after at most N/budget + M/chunk + 1 calls |
| LocalQueryEngine.Execute | basic/src/query/LocalQueryEngine.cpp:176-361 | the loop over files and lines computes the resumable scan of the logical rows, for every start row, chunk size and budget |
| LocalQueryEngine.ScanFile | basic/src/query/LocalQueryEngine.cpp:239-340 | one file is read to its end, or the scan stops inside it with its result complete |
| LocalQueryEngine.Count | basic/src/query/LocalQueryEngine.cpp:103-174 | counts all logical rows and all matches |
| LocalQueryEngine.ResumedScanAgreesWithCount | basic/src/query/LocalQueryEngine.cpp:103-174 | a finished resumed scan scanned and matched as many rows as the counting pass |
| LocalQueryEngine.RunExecute | basic/src/querycoordination/WorkerNode.cpp:56-92 | the worker's result is the scan's, every row labelled with this node |
| QueryMeaning.FilterIsItsParts | basic/src/query/LocalQueryEngine.cpp:36-101 | a row is accepted by a filter exactly when each of its six conditions accepts it |
| QueryMeaning.PickupQuery | basic/src/query/LocalQueryEngine.cpp:39-48 | a query on the pickup time alone selects exactly the parsed rows in the range, in scans and in counts |
| QueryMeaning.DropoffQuery | basic/src/query/LocalQueryEngine.cpp:50-59 | the same for the dropoff time |
| QueryMeaning.DistanceQuery | basic/src/query/LocalQueryEngine.cpp:61-70 | the same for the trip distance |
| QueryMeaning.TipQuery | basic/src/query/LocalQueryEngine.cpp:72-81 | the same for the tip |
| QueryMeaning.TotalQuery | basic/src/query/LocalQueryEngine.cpp:83-92 | the same for the total amount |
| QueryMeaning.PaymentQuery | basic/src/query/LocalQueryEngine.cpp:94-98 | a query on the payment type alone selects exactly the parsed rows with that type |
| QueryMeaning.TripCarriesRow | basic/src/query/LocalQueryEngine.cpp:8-20 | the delivered trip has the fields of the row, the payment type to eight bits |
| QueryMeaning.StoreRowsAreItsLines | basic/src/query/LocalQueryEngine.cpp:103-174 | the logical rows are exactly the non-empty lines under accepted headers, in file and line order |
| QueryMeaning.SizesLeftOut | basic/src/query/LocalQueryEngine.cpp:176-200 | a chunk size of 0 sets no limit and a budget of 0 stands for 50000 rows |
| QueryMeaning.ResultNamesItsRows | basic/src/querycoordination/WorkerNode.cpp:56-92 | every trip of a worker's result comes with its node and the number of the row it was read from |
| ChunkSizing.MoreLoadNeverMeansLargerChunk | basic/src/querycoordination/QueryCoordinator.cpp:567-615 | the adaptive chunk never grows with active requests or cached rows |
| ChunkSizing.ChunkThresholds | basic/src/querycoordination/QueryCoordinator.cpp:569-580 | small chunks exactly from 8 active requests or 8000 cached rows, large ones exactly up to 2 and 2000 |
| ChunkSizing.SizeOfLoad | basic/src/querycoordination/QueryCoordinator.cpp:567-615 | without a number asked for, the chunk is 500, 1000 or 5000 rows by whole active requests and cached rows |
| ChunkSizing.ChunkIsLesser | basic/src/querycoordination/QueryCoordinator.cpp:582-588 | with a number asked for, the chunk is that number or the load's size, whichever is smaller |
| ProtocolInvariants.StartAsks | basic/src/querycoordination/QueryCoordinator.cpp:618-658 | a new request tree asks each node as often as the forwarding tree does |
| ProtocolInvariants.PullKeeps | basic/src/querycoordination/QueryCoordinator.cpp:834-870 | refilling keeps the record consistent, adds what the window gains to the matched counter, and fits one chunk per worker |
| ProtocolInvariants.ServeKeeps | basic/src/querycoordination/QueryCoordinator.cpp:199-230 | serving hands out the next rows and labels of the window and moves the cursor over exactly those |
| ProtocolInvariants.FetchKeeps | basic/src/querycoordination/QueryCoordinator.cpp:145-245 | every fetch, under any failures, keeps windows, labels, cursors and progress of the whole tree consistent |
| ProtocolInvariants.FetchConserves | basic/src/querycoordination/RequestState.cpp:46-62 | clearing and refilling a window never loses an unread row |
| ProtocolInvariants.WindowConservation | basic/src/model/QueryResult.hpp:49-74 | in every reachable state rowsMatched is the rows delivered plus the rows cached unread, and the parallel lists agree with rowsEmitted |
| ProtocolInvariants.FetchIsBounded | basic/src/querycoordination/QueryCoordinator.cpp:183-208 | replies hold at most min(max_rows, 5000) rows; a refilled window at most one adaptive chunk per worker |
| ProtocolInvariants.WindowIsBounded | basic/src/querycoordination/QueryCoordinator.cpp:685-693 | in every run the window stays within 5000 rows per worker |
| ProtocolInvariants.DoneIsExact | basic/src/querycoordination/QueryCoordinator.cpp:199-230 | a live request says done exactly when every worker is exhausted and the window is read |
| ProtocolInvariants.DoneIsStable | basic/src/querycoordination/QueryCoordinator.cpp:162-174 | after done, cancel or timeout every later fetch of every run is empty and done |
| ProtocolSizes.LocalTakes | basic/src/querycoordination/QueryCoordinator.cpp:660-704 | the local shard gives as many matching rows as the chunk allows of those among its next 50000 rows; if fewer, it has passed all of these |
| ProtocolSizes.ChildTakes | basic/src/querycoordination/QueryCoordinator.cpp:774-817 | a child that answers gives as many rows as its chunk allows of those it has; if fewer, its window is read to the end |
| ProtocolSizes.EveryChildHasItsTurn | basic/src/querycoordination/QueryCoordinator.cpp:717-832 | in a round every child makes its own move |
| ProtocolSizes.RowsOfChild | basic/src/querycoordination/QueryCoordinator.cpp:796-817 | a child's rows stand behind those of the children before it |
| ProtocolSizes.FetchHandsOut | basic/src/querycoordination/QueryCoordinator.cpp:183-230 | a fetch hands out exactly the smaller of its chunk size and the rows that are unread once it has refilled |
| ProtocolSizes.OneFetchSuffices | basic/src/querycoordination/QueryCoordinator.cpp:145-245 | a node alone with fewer matches than the sizes hands out all of them in one fetch, and is done |
| ProtocolRounds.RefillsAlternate | basic/src/querycoordination/QueryCoordinator.cpp:844-856 | at every request of the tree, in every run, refills number 0, 2, 4 put the own rows first and refills number 1, 3, 5 those of the children |
| ProtocolAccounting.EveryRequestInOrder | basic/src/querycoordination/QueryCoordinator.cpp:857-860 | in every run every request of the tree keeps its window within 5000 rows per worker, is IN_PROGRESS while a worker has more and then COMPLETED, unless stopped, and its workers have more exactly until they are completed |
| ProtocolAccounting.DoneIsCompletedAndRead | basic/src/querycoordination/QueryCoordinator.cpp:199-230 | a live request says done exactly when it is COMPLETED and its window is read |
| ProtocolAccounting.BooksBalance | basic/src/querycoordination/QueryCoordinator.cpp:796-817 | at every request of the tree the rows matched are at most those its own scan found and its children handed out, and exactly those when nothing fails; the rows scanned are those its own scan passed and those its children sent, `nextStartRow` is that of its own scan, and it says `hasMore` while a worker has more |
| ProtocolDelivery.FetchDelivers | basic/src/querycoordination/QueryCoordinator.cpp:706-832 | per source, what a fetch hands out and what can still come is a prefix of what could come before, and all of it when nothing fails |
| ProtocolDelivery.FailuresOnlyTruncate | basic/src/querycoordination/QueryCoordinator.cpp:758-794 | whatever fails or is cancelled, the rows received from a source asked once are a prefix of its matching rows in scan order |
| ProtocolDelivery.ReliableRunsAreExact | basic/src/querycoordination/QueryCoordinator.cpp:618-870 | on a guarded overlay without failures the replies up to done carry every reachable node's matching rows once, labelled and in scan order, and nothing else |
| ProtocolMultiplicity.FetchBalances | basic/src/querycoordination/QueryCoordinator.cpp:145-245 | copies of a row are conserved by a fetch, and failures only lose some |
| ProtocolMultiplicity.EveryRowOncePerRequest | basic/src/querycoordination/QueryCoordinator.cpp:618-870 | on any overlay a row is never received more often than its owner was asked, and exactly that often in a finished run without failures |
| Renaming.RunRenames | basic/src/querycoordination/QueryCoordinator.cpp:145-245 | the protocol does not look at node names: renaming nodes renames the labels of the replies and nothing else |
| ProtocolOrder.RowsAreInterleavedScans | basic/src/querycoordination/QueryCoordinator.cpp:618-870 | on any overlay the rows received from a source are an interleaving of as many prefixes of its matching rows, in scan order, as it was asked, and of all its matching rows when nothing failed |
| ProtocolTermination.FetchWorks | basic/src/querycoordination/QueryCoordinator.cpp:661-870 | a measure over the whole request tree pays for every delivered row and falls with every fetch that is not done, under any failures |
| ProtocolTermination.FetchingReachesDone | basic/src/querycoordination/QueryCoordinator.cpp:145-245 | a client that keeps fetching gets done after at most the initial measure of fetches |
| ProtocolCoverage.DoneMeansEveryReachableNodeScanned | basic/src/querycoordination/QueryCoordinator.cpp:717-832 | at done without failures every request of the tree was submitted and scanned to the end, and the tree holds exactly the reachable nodes |
| ProtocolReliability.RunKeepsPlan | basic/src/querycoordination/QueryCoordinator.cpp:717-772 | no run changes which requests a client query has created or will create |
| ProtocolReliability.CalmIsReliable | basic/src/querycoordination/QueryCoordinator.cpp:758-794 | a network that accepts and answers every call the overlay allows makes every fetch reliable, in any state of the request |
| ProtocolReliability.LastReplyIsDone | basic/src/querycoordination/QueryCoordinator.cpp:145-245 | a client that fetched more often than the initial measure has done in its last reply, whatever failed |
| ProtocolReliability.FinishedReliableRunExists | basic/src/querycoordination/QueryCoordinator.cpp:618-870 | for all shards, overlays and entry nodes there is a run without failures that ends with done |
| RequestStates.QueryRequest.MarkVisitedNode | basic/src/model/QueryRequest.hpp:75-82 | marking adds the node once |
| Results.MergeGathers | basic/src/model/QueryResult.hpp:49-74 | a merged result has the rows of the first, then those of the second, and counts what both count |
| Results.ClearedForgetsRows | basic/src/querycoordination/RequestState.cpp:51-62 | clearing forgets the window's rows and nothing else |
| RequestStates.RequestState.ClearAggregatedRows | basic/src/querycoordination/RequestState.cpp:51-62 | drops the payload and the cursor, keeps the running counters |
| RequestStates.RequestState.InitializeWorker | basic/src/querycoordination/RequestState.cpp:136-139 | a tracked worker keeps its progress |
| RequestStates.RequestState.UpdateWorkerProgress | basic/src/querycoordination/RequestState.cpp:163-171 | one worker's cursor changes, and it is completed when nothing more is left |
| RemoteQueryClients.RemoteQueryClient.SubmitSubQuery | basic/src/transport/GrpcRemoteQueryClient.cpp:71-90 | the child marks itself and creates a new record in its start state under an id of its own, also when the reply is lost; no other sub-request changes |
| RemoteQueryClients.RemoteQueryClient.FetchSubChunk | basic/src/transport/GrpcRemoteQueryClient.cpp:94-179 | a call moves only the named sub-request, and may fail before or after that |
| QueryCoordinators.QueryCoordinator.constructor | basic/src/querycoordination/QueryCoordinator.hpp:50-55 | a new coordinator has no records and is consistent |
| QueryCoordinators.QueryCoordinator.GetCoordinatorPressureRatio | basic/src/querycoordination/QueryCoordinator.cpp:590-615 | the loop computes the pressure of all records |
| QueryCoordinators.ActiveAreLive | basic/src/querycoordination/RequestState.cpp:29-34 | active requests are those that are neither completed nor cancelled nor timed out |
| QueryCoordinators.CachedAreWindows | basic/src/querycoordination/QueryCoordinator.cpp:590-615 | cached rows are the rows of all windows |
| QueryCoordinators.QueryCoordinator.FetchLocalExecuteChunk | basic/src/querycoordination/QueryCoordinator.cpp:660-704 | one local chunk, in place and sized by the coordinator's pressure, is the protocol's local pull |
| QueryCoordinators.QueryCoordinator.EnsureSubmitted | basic/src/querycoordination/QueryCoordinator.cpp:735-772 | submits on first use with this node and all its children marked, or gives the child up |
| QueryCoordinators.QueryCoordinator.FetchSubmitted | basic/src/querycoordination/QueryCoordinator.cpp:774-817 | one child chunk, sized by the coordinator's pressure, merged into the window, or the child given up |
| QueryCoordinators.QueryCoordinator.FetchRemoteExecuteChunks | basic/src/querycoordination/QueryCoordinator.cpp:706-832 | the loop over all children is the protocol's pull of the children, each under the load that the chunks before it have left, and touches no other record's sub-requests |
| QueryCoordinators.QueryCoordinator.FetchNextExecuteChunks | basic/src/querycoordination/QueryCoordinator.cpp:834-870 | clearing, alternating order and phase change are the protocol's pull |
| QueryCoordinators.QueryCoordinator.ServeWindow | basic/src/querycoordination/QueryCoordinator.cpp:196-230 | hands out unread rows as the protocol serves them |
| QueryCoordinators.QueryCoordinator.FindRequestState | basic/src/querycoordination/QueryCoordinator.cpp:504-515 | finds a record with the id or reports that there is none |
| QueryCoordinators.QueryCoordinator.FetchChunkForRpc | basic/src/querycoordination/QueryCoordinator.cpp:145-245 | the named record moves by the protocol's fetch, under the load the records make and the given network, every other record keeps its whole state, an unknown id is not found |
| QueryCoordinators.QueryCoordinator.InitializeExecuteProgress | basic/src/querycoordination/QueryCoordinator.cpp:617-658 | one fresh entry for the local worker and for every child not visited, and that many expected workers |
| QueryCoordinators.QueryCoordinator.Submit | basic/src/querycoordination/QueryCoordinator.cpp:93-143 | a new record in the start state of its forwarding tree, under a new id, no other record touched |
| QueryCoordinators.QueryCoordinator.Interrupt | basic/src/querycoordination/QueryCoordinator.cpp:247-269 | cancel and timeout change one record's phase and nothing else |
| ServiceSpec.RecordRuns | basic/src/server/QueryServiceImpl.cpp:22-107 | isolation: whatever all clients do in whatever order, a record's state and its client's replies are those of a protocol run on its own calls |
| ServiceSpec.StopIsRecorded | basic/src/querycoordination/QueryCoordinator.cpp:247-269 | a cancel leaves a record CANCELLED and a timeout leaves it TIMED_OUT, and nothing else changes |
| ServiceSpec.UntroubledIsReliable | basic/src/querycoordination/QueryCoordinator.cpp:735-794 | a request that nobody stops, fetched over a calm network, has a run without failures |
| ServiceSpec.ClientAmongOthers | basic/src/querycoordination/QueryCoordinator.cpp:145-245 | among any other clients: prefixes from sources asked once, interleaved scans and never more copies than asked for from any source, nothing missing at done when untroubled, everything once and in order on guarded overlays, and done after enough fetches |
| QueryServices.FetchRpc | basic/src/server/QueryServiceImpl.cpp:48-90 | the fetch handler moves the request table as the specification says |
| QueryServices.PerformAll | basic/src/server/QueryServiceImpl.cpp:22-107 | any sequence of calls to the in-place coordinator gives the table and the answers of the specification |
| QueryServices.QueryAmongOthers | benchmark_queries.py:69-102 | a client that submits and fetches against the in-place coordinator, with arbitrary other calls in between, has all of these guarantees, from conditions on the calls alone |
| NetworkCalls.FetchHolds | basic/src/querycoordination/QueryCoordinator.cpp:706-832 | one fetch over the separate tables of all nodes, nested calls included, does to a request's tree what the protocol says, and touches only that tree's records and new ones |
| NetworkRuns.NetworkRefinesTrees | basic/src/server/QueryServiceImpl.cpp:22-169 | whatever clients do at whatever nodes, each client's replies are those of a protocol run on its own tree |
| NetworkRuns.EveryClientHasScans | basic/src/querycoordination/QueryCoordinator.cpp:145-245 | every client of the network has, at any moment, only interleaved prefixes of each source's matching rows |
| OverlayConfigs.OverlayConfig.SetChildren | basic/src/model/OverlayConfig.hpp:53-71 | after any edit the parent index is the exact inverse of the children, without duplicate or empty entries |
| OverlayConfigs.OverlayConfig.AddIncomingEdge | basic/src/model/OverlayConfig.hpp:444-452 | adds one edge to the index, once |
| OverlayConfigs.OverlayConfig.RemoveIncomingEdge | basic/src/model/OverlayConfig.hpp:457-472 | removes one edge from the index and an entry that becomes empty |
| OverlayConfigs.OverlayConfig.CollectReachable | basic/src/model/OverlayConfig.hpp:502-520 | adds only reachable nodes, and all children of what it adds |
| OverlayConfigs.OverlayConfig.ReachableFrom | basic/src/model/OverlayConfig.hpp:398-399 | exactly the reachable nodes |
| OverlayConfigs.OverlayConfig.CollectDescendants | basic/src/model/OverlayConfig.hpp:243-251 | exactly the reachable nodes other than the start, without duplicates, on cyclic graphs too |
| OverlayConfigs.OverlayConfig.HasCycle | basic/src/model/OverlayConfig.hpp:525-556 | true only if a cycle is reachable; otherwise the finished nodes are closed under edges and on no cycle |
| OverlayConfigs.OverlayConfig.HasCycleFrom | basic/src/model/OverlayConfig.hpp:406-412 | started with empty sets, true exactly when a cycle is reachable |
| OverlayConfigs.OverlayConfig.Validate | basic/src/model/OverlayConfig.hpp:335-415 | accepts exactly the overlays with one entry, a known or unset self id, disjoint files, known and distinct children, everything reachable and no cycle |
| ParallelSelect.ExecuteSerial | basic/src/apps/implementationA/phase3/query_soa.cpp:61-68 | the serial result is the filter's row list |
| ParallelSelect.CountSerial | basic/src/apps/implementationA/phase3/query_soa.cpp:39-45 | counts the matches |
| ParallelSelect.PrefixOffsets | basic/src/apps/implementationA/phase3/query_soa.cpp:95-101 | each thread's region starts at the number of matches before its block, and the total is the number of matches |
| ParallelSelect.RowWritten | basic/src/apps/implementationA/phase3/query_soa.cpp:111-115 | writing one row at its place is in bounds and disturbs no other row's slot |
| ParallelSelect.AllDoneIsSerial | basic/src/apps/implementationA/phase3/query_soa.cpp:61-120 | when all threads have finished, the vector is the serial result and every slot was written exactly once |
| ParallelSelect.FillPass.Step | basic/src/apps/implementationA/phase3/query_soa.cpp:106-116 | one iteration of any thread keeps the fill invariant |
| ParallelSelect.ExecuteParallel | basic/src/apps/implementationA/phase2/query.cpp:48-97 | under every block partition and every schedule each thread has advanced by exactly its turns; all finish if and only if each got enough turns, and then the result is the serial one with one write per slot |
| IngestDispatchers.IngestQueue.PushAll | basic/src/ingest/IngestQueue.hpp:36-42 | appends the jobs in order |
| IngestDispatchers.IngestDispatcher.SetWorkers | basic/src/ingest/IngestDispatcher.hpp:29-40 | every load starts at zero |
| IngestDispatchers.IngestDispatcher.SelectLeastLoadedWorker | basic/src/ingest/IngestDispatcher.hpp:73-98 | the loop with its sentinels finds the first worker of least bytes, then least trips |
| IngestDispatchers.IngestDispatcher.AssignNext | basic/src/ingest/IngestDispatcher.hpp:49-70 | the oldest shard goes to that worker and its 64-bit loads grow by the shard |
| IngestDispatchers.EveryShardOnceInOrder | basic/src/ingest/IngestDispatcher.hpp:49-70 | each shard is assigned once, in queue order, to one of the workers |
| IngestDispatchers.LoadsAreSums | basic/src/ingest/IngestDispatcher.hpp:62-69 | the byte and trip counters of every worker are those of the shards handed to it, in 64 bits |
| IngestDispatchers.ShardGoesToLeastLoaded | basic/src/ingest/IngestDispatcher.hpp:73-98 | every shard goes to the first worker of least bytes, and then least trips, of the shards handed out before it |
| IngestDispatchers.DispatchKeeps | basic/src/ingest/IngestDispatcher.hpp:49-98 | loads are the assigned bytes, add up to all bytes, and each satisfies m * L <= total + (m - 1) * largest shard |
| IngestDispatchers.GreedyWithinTwiceBest | basic/src/ingest/IngestDispatcher.hpp:73-98 | the largest load is within 2 - 1/m of what any assignment could reach |
| IngestDispatchers.DispatchAll | basic/src/ingest/IngestDispatcher.hpp:49-70 | draining a queue with assignNext is the dispatch function of these theorems |
| TaxiTripParser.SplitCSV | basic/src/apps/implementationA/taxiTripParser.cpp:142-166 | the loop computes the split of the line |
| TaxiTripParser.SplitUndoesQuoting | basic/src/apps/implementationA/taxiTripParser.cpp:142-166 | splitting undoes the quoting of RFC 4180 section 2 for every non-empty record over any characters |
| TaxiTripParser.SplitMeansRecord | basic/src/apps/implementationA/taxiTripParser.cpp:142-166 | every line, also one with quotes inside bare fields or an unclosed quote, is a record written in bare and quoted pieces, and splitting gives that record's fields |
| MoneyParser.TrimSpaces | basic/src/dataset/PartitionCsvParser.hpp:199-210 | both pointers move inwards over blanks; crossed pointers stay |
| MoneyParser.ParseMoneyCents | basic/src/dataset/PartitionCsvParser.hpp:522-660 | the pointer-walking parser computes the meaning of every cell, malformed ones included |
| MoneyParser.TakingIsRounding | basic/src/dataset/PartitionCsvParser.hpp:574-622 | two digits and a look at the third is correct rounding of the value times 100 |
| MoneyParser.MoneyOfDecimal | basic/src/dataset/PartitionCsvParser.hpp:522-660 | a decimal is worth its value times 100, rounded half away from zero and clamped to 32 bits, with blanks and quotes around it |
| MoneyParser.MoneyIsNearest | basic/src/dataset/PartitionCsvParser.hpp:522-660 | a cell with a decimal is worth the nearest number of cents if that is a 32-bit number, and else 2147483647 or -2147483648 |
| MoneyParser.NumeralsAreDecimal | basic/src/dataset/PartitionCsvParser.hpp:562-572 | numerals are decimal |
| MoneyParser.OnlyDecimalsCount | basic/src/dataset/PartitionCsvParser.hpp:608-640 | a cell with a value other than 0 is a decimal with spaces, tabs or carriage returns around it, and perhaps quotes |
| MoneyParser.ParsingInvertsPrinting | basic/src/dataset/PartitionCsvParser.hpp:522-660 | parsing inverts the two-decimal printing of every 32-bit amount |

## Left out

- MoneyParser.ParseMoneyCents: the dollar count is unbounded here; the source's 64-bit counter agrees for up to 16 integer digits, and beyond its range the source's behaviour is undefined.
- ParallelSelect.ExecuteParallel: the first pass and the prefix sums run in thread order, because each thread's count touches no shared data; only the fill pass is interleaved. A run-time team whose blocks differ between the passes is not covered.
- All coordinators on one heap: `QueryCoordinator` is proved in place for one node, and `Network` composes all nodes as tables of values.
- In `Network` the load of every node is arbitrary (`Env`), and a submission whose reply is lost leaves no orphan record; `RemoteQueryClient` has the orphan, which nobody ever fetches.
- The queue's push and clear and the overlay's addNode: one assignment each.
- An outsider who fetches directly on a sub-request id: only the parent is assumed to fetch from its children.
- Request ids as text: ids are the sequence numbers behind "q-1", "q-2" and so on.
- Distributed COUNT and targeted queries: the RPC converters only produce untargeted EXECUTE requests.
- gRPC transport, deadlines, protobuf conversion, console output and timing.
- Races between threads inside one coordinator: every RPC is one atomic step.
- The not-a-number distance value: distances are reals that only filters compare.
- Date and float parsing, header lookup and row assembly of the CSV parsers: the scan takes the parser as a parameter.
- The file-to-owner index, endpoints and other lookups of the overlay class: they would add easy members only.
- Row stores, dataset streaming, ingest merging, configuration parsing, benchmark runners and the Python node.
