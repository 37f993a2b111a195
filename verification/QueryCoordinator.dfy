/** One node's coordinator: it accepts queries and serves fetches by updating its
    request records in place. Every method is proved to do what the fetch protocol on values does. */
module QueryCoordinators {
  import opened Results
  import opened Graph
  import opened ChunkSizing
  import opened Forwarding
  import opened Protocol
  import opened LocalQueryEngine
  import opened RequestStates
  import opened RemoteQueryClients
  import opened CoordinatorSpec

  datatype RpcChunkResult = RpcChunkResult(found: bool, reply: Reply)

  lemma MergeEmpty(q: QueryResult)
    ensures q.Merge(EMPTY_RESULT) == q
    ensures EMPTY_RESULT.Merge(q) == q
  {
    assert q.matchedRows + [] == q.matchedRows && q.trips + [] == q.trips && q.sources + [] == q.sources;
  }

  lemma MergeAssociative(p: QueryResult, q: QueryResult, r: QueryResult)
    ensures p.Merge(q).Merge(r) == p.Merge(q.Merge(r))
  {
    assert (p.matchedRows + q.matchedRows) + r.matchedRows == p.matchedRows + (q.matchedRows + r.matchedRows);
    assert (p.trips + q.trips) + r.trips == p.trips + (q.trips + r.trips);
    assert (p.sources + q.sources) + r.sources == p.sources + (q.sources + r.sources);
  }

  function ActiveRequests(states: seq<RequestState>): nat
    reads states`state
  {
    if states == [] then 0
    else ActiveRequests(states[..|states| - 1]) + if states[|states| - 1].IsTerminal() then 0 else 1
  }

  function CachedRows(states: seq<RequestState>): nat
    reads states`aggregatedResult
  {
    if states == [] then 0
    else CachedRows(states[..|states| - 1]) + |states[|states| - 1].aggregatedResult.trips|
  }

  /** Requests that are neither completed nor stopped. */
  ghost function LiveOnes(states: seq<RequestState>): set<nat>
    reads states`state
  {
    set i: nat | i < |states| && (states[i].state == Pending || states[i].state == InProgress)
  }

  /** The active requests are the ones that are neither COMPLETED nor CANCELLED nor TIMED_OUT. */
  lemma {:induction false} ActiveAreLive(states: seq<RequestState>)
    ensures ActiveRequests(states) == |LiveOnes(states)|
  {
    if states == [] {
      assert LiveOnes(states) == {};
    } else {
      var k := |states| - 1;
      ActiveAreLive(states[..k]);
      var here: set<nat> := if states[k].state == Pending || states[k].state == InProgress then {k} else {};
      assert LiveOnes(states) == LiveOnes(states[..k]) + here;
    }
  }

  /** Places of cached rows: which record, which row of its window. */
  ghost function CachedPlaces(states: seq<RequestState>): set<(nat, nat)>
    reads states`aggregatedResult
  {
    set i: nat, j: nat | i < |states| && j < |states[i].aggregatedResult.trips| :: (i, j)
  }

  lemma {:induction false} CachedAreWindows(states: seq<RequestState>)
    ensures CachedRows(states) == |CachedPlaces(states)|
  {
    if states == [] {
      assert CachedPlaces(states) == {};
    } else {
      var k := |states| - 1;
      var n := |states[k].aggregatedResult.trips|;
      CachedAreWindows(states[..k]);
      var here := set j: nat | j < n :: (k, j);
      PairsCount(k, n);
      assert CachedPlaces(states) == CachedPlaces(states[..k]) + here;
    }
  }

  lemma {:induction false} PairsCount(k: nat, n: nat)
    ensures |set j: nat | j < n :: (k, j)| == n
  {
    var pairs := set j: nat | j < n :: (k, j);
    if n == 0 {
      assert pairs == {};
    } else {
      PairsCount(k, n - 1);
      assert pairs == (set j: nat | j < n - 1 :: (k, j)) + {(k, n - 1)};
    }
  }

  /** Rows cached by the records other than `s`. */
  ghost function CachedElsewhere(states: seq<RequestState>, s: RequestState): nat
    reads (set t | t in states && t != s)`aggregatedResult
  {
    if states == [] then 0
    else
      var last := states[|states| - 1];
      CachedElsewhere(states[..|states| - 1], s) + if last == s then 0 else |last.aggregatedResult.trips|
  }

  ghost predicate Apart(s: RequestState, t: RequestState) {
    s != t && s.queryId != t.queryId
  }

  ghost predicate RecordsDistinct(states: seq<RequestState>) {
    forall i, j {:trigger Apart(states[i], states[j])} :: 0 <= i < j < |states| ==> Apart(states[i], states[j])
  }

  /** How often a record is listed. */
  ghost function Listings(states: seq<RequestState>, s: RequestState): nat {
    if states == [] then 0 else Listings(states[..|states| - 1], s) + if states[|states| - 1] == s then 1 else 0
  }

  lemma {:induction false} CachedHereAndElsewhere(states: seq<RequestState>, s: RequestState)
    requires Listings(states, s) <= 1
    ensures CachedRows(states) == CachedElsewhere(states, s) + if Listings(states, s) == 1
      then |s.aggregatedResult.trips| else 0
  {
    if states != [] {
      CachedHereAndElsewhere(states[..|states| - 1], s);
    }
  }

  /** All other records differ from record `i`, in their ids too. */
  lemma DistinctFrom(states: seq<RequestState>, i: nat)
    requires RecordsDistinct(states) && i < |states|
    ensures forall j :: 0 <= j < |states| && j != i ==> Apart(states[j], states[i])
  {
    forall j | 0 <= j < |states| && j != i ensures Apart(states[j], states[i]) {
      assert if j < i then Apart(states[j], states[i]) else Apart(states[i], states[j]);
    }
  }

  lemma {:induction false} DistinctListedOnce(states: seq<RequestState>, s: RequestState)
    requires RecordsDistinct(states)
    ensures Listings(states, s) == if s in states then 1 else 0
  {
    if states != [] {
      var k := |states| - 1;
      forall i, j | 0 <= i < j < k ensures Apart(states[..k][i], states[..k][j]) {
        assert Apart(states[i], states[j]);
      }
      DistinctListedOnce(states[..k], s);
      DistinctFrom(states, k);
    }
  }

  /** Among the first `i` children there are `k` targets. */
  ghost predicate TargetsSeen(children: seq<NodeId>, visited: set<NodeId>, i: nat, k: nat) {
    i <= |children| && k == |Scheduled(children[..i], visited)|
  }

  lemma NoTargetsYet(children: seq<NodeId>, visited: set<NodeId>)
    ensures TargetsSeen(children, visited, 0, 0)
  {
  }

  /** The next child is the next target unless it is visited. */
  lemma NextTarget(children: seq<NodeId>, visited: set<NodeId>, i: nat, k: nat)
    requires TargetsSeen(children, visited, i, k) && i < |children|
    ensures children[i] in visited ==> TargetsSeen(children, visited, i + 1, k)
    ensures children[i] !in visited ==>
      TargetsSeen(children, visited, i + 1, k + 1) && k < |Scheduled(children, visited)|
          && Scheduled(children, visited)[k] == children[i]
  {
    assert children[..i + 1][..i] == children[..i];
    ScheduledLast(children[..i + 1], visited);
    ScheduledPrefix(children, visited, i + 1);
    if children[i] !in visited {
      NextOfPrefix(Scheduled(children, visited), Scheduled(children[..i], visited), children[i]);
    }
  }

  lemma NextOfPrefix(all: seq<NodeId>, before: seq<NodeId>, n: NodeId)
    requires before + [n] <= all
    ensures |before| < |all| && all[|before|] == n
  {
    assert (before + [n])[|before|] == n;
  }

  lemma AllTargetsSeen(children: seq<NodeId>, visited: set<NodeId>, k: nat)
    requires TargetsSeen(children, visited, |children|, k)
    ensures k == |Scheduled(children, visited)|
  {
    assert children[..|children|] == children;
  }

  lemma {:induction false} ScheduledPrefix(children: seq<NodeId>, visited: set<NodeId>, i: nat)
    requires i <= |children|
    ensures |Scheduled(children[..i], visited)| <= |Scheduled(children, visited)|
    ensures Scheduled(children[..i], visited) == Scheduled(children, visited)[..|Scheduled(children[..i], visited)|]
    decreases |children|
  {
    if i < |children| {
      assert children[..|children| - 1][..i] == children[..i];
      ScheduledPrefix(children[..|children| - 1], visited, i);
    } else {
      assert children[..i] == children;
    }
  }

  /** Calls beyond the ones already made do not change a pull. */
  lemma {:induction false} PullKidsIgnoresLaterCalls(sh: Shards, kids: seq<Kid>, maxRows: nat, calls: seq<CallEnv>,
      more: seq<CallEnv>)
    requires |calls| >= |kids|
    ensures PullKids(sh, kids, maxRows, calls + more) == PullKids(sh, kids, maxRows, calls)
    decreases kids
  {
    if kids != [] {
      PullKidsIgnoresLaterCalls(sh, kids[..|kids| - 1], maxRows, calls, more);
    }
  }

  /** What a round of child calls starts from, and the network and load that it meets. */
  datatype Round = Round(
    sh: Shards,
    kids: seq<Kid>,
    agg: QueryResult,
    progress: map<NodeId, WorkerProgress>,
    requests: map<Handle, RemoteRequest>,
    load: Load,
    maxRows: nat,
    net: seq<NetCall>
  ) {

    function Calls(k: nat): seq<CallEnv>
      requires k <= |kids|
    {
      RoundCalls(load, |agg.trips|, sh, kids[..k], maxRows, net)
    }

    function Pulled(k: nat): (seq<Kid>, QueryResult)
      requires k <= |kids|
    {
      PullKids(sh, kids[..k], maxRows, Calls(k))
    }

    /** The call that child `k` gets while the window holds `window` rows. */
    function Turn(k: nat, window: nat): CallEnv {
      NextCall(load, window, NetAt(net, k))
    }

    /** After `k` children: those are pulled, the others untouched, and the window holds what came. */
    ghost predicate At(k: nat, kids': seq<Kid>, agg': QueryResult) {
      && |kids'| == |kids| && k <= |kids|
      && agg' == agg.Merge(Pulled(k).1)
      && (forall j :: 0 <= j < k ==> kids'[j] == Pulled(k).0[j])
      && (forall j :: k <= j < |kids| ==> kids'[j] == kids[j])
    }

    lemma PulledNext(k: nat)
      requires k < |kids|
      ensures var (kid, partial) := PullKid(sh, kids[k], maxRows, Turn(k, |agg.trips| + |Pulled(k).1.trips|));
        Pulled(k + 1) == (Pulled(k).0 + [kid], Pulled(k).1.Merge(partial))
    {
      var ce := Turn(k, |agg.trips| + |Pulled(k).1.trips|);
      assert kids[..k + 1][..k] == kids[..k];
      assert Calls(k + 1) == Calls(k) + [ce];
      PullKidsIgnoresLaterCalls(sh, kids[..k], maxRows, Calls(k), [ce]);
    }

    lemma Step(k: nat, kids1: seq<Kid>, agg1: QueryResult, kids2: seq<Kid>, agg2: QueryResult)
      requires At(k, kids1, agg1) && k < |kids| == |kids2|
      requires (kids2[k], agg2) == ChildPulled(sh, kids1[k], agg1, maxRows, Turn(k, |agg1.trips|))
      requires forall j :: 0 <= j < |kids| && j != k ==> kids2[j] == kids1[j]
      ensures At(k + 1, kids2, agg2)
    {
      PulledNext(k);
      MergeAssociative(agg, Pulled(k).1, PullKid(sh, kids[k], maxRows, Turn(k, |agg1.trips|)).1);
    }

    lemma Begin()
      ensures At(0, kids, agg)
    {
      MergeEmpty(agg);
    }

    lemma End(kids': seq<Kid>, agg': QueryResult)
      requires At(|kids|, kids', agg')
      ensures var (after, gathered) :=
        PullKids(sh, kids, maxRows, RoundCalls(load, |agg.trips|, sh, kids, maxRows, net));
        kids' == after && agg' == agg.Merge(gathered)
    {
      assert kids[..|kids|] == kids;
      assert kids' == Pulled(|kids|).0;
    }
  }

  class QueryCoordinator {
    const selfNodeId: NodeId
    const overlay: Overlay
    const store: PartitionStore
    const parser: Parser
    const remoteClient: RemoteQueryClient
    var queryStates: seq<RequestState>
    var nextQuerySeq: nat

    constructor (selfNodeId: NodeId, overlay: Overlay, store: PartitionStore, parser: Parser,
        remoteClient: RemoteQueryClient)
      requires remoteClient.overlay == overlay && remoteClient.Valid()
      requires store == remoteClient.data.stores(selfNodeId) && parser == remoteClient.data.parser
      ensures Configured() && queryStates == [] && nextQuerySeq == 1
      ensures DistinctChildren(overlay) ==> Valid()
      ensures this.selfNodeId == selfNodeId && this.remoteClient == remoteClient
    {
      this.selfNodeId, this.overlay, this.store, this.parser := selfNodeId, overlay, store, parser;
      this.remoteClient, queryStates, nextQuerySeq := remoteClient, [], 1;
    }

    // ----- the abstract state of a request record

    /** The children this request forwards to. */
    ghost function Targets(request: QueryRequest): seq<NodeId> {
      Scheduled(Children(overlay, selfNodeId), Elements(request.visitedNodeIds) + {selfNodeId})
    }

    /** The state that submitting to child `c` creates. */
    ghost function Unsent(request: QueryRequest, c: NodeId): Req {
      Start(ForwardPlan(overlay, c, PassedOn(overlay, selfNodeId, Elements(request.visitedNodeIds))))
    }

    ghost function KidOf(request: QueryRequest, progress: map<NodeId, WorkerProgress>,
        requests: map<Handle, RemoteRequest>, c: NodeId): Kid {
      if c !in progress then Kid(c, FRESH_PROGRESS, Unsent(request, c))
      else
        var p := progress[c];
        Kid(c, p.View(), if p.submitted
            && (c, p.remoteRequestId) in requests then requests[(c, p.remoteRequestId)].req else Unsent(request, c))
    }

    ghost function KidsOf(request: QueryRequest, progress: map<NodeId, WorkerProgress>,
        requests: map<Handle, RemoteRequest>): seq<Kid> {
      seq(|Targets(request)|,
          i requires 0 <= i < |Targets(request)| => KidOf(request, progress, requests, Targets(request)[i]))
    }

    /** The record, its handles replaced by the requests they name. */
    ghost function Abs(s: RequestState): Req
      reads s, remoteClient
    {
      Req(selfNodeId, s.state, s.aggregatedResult, s.nextUnreadIndex, s.fetchRound,
          if selfNodeId in s.workerProgress then s.workerProgress[selfNodeId].View() else FRESH_PROGRESS,
          Kids(s))
    }

    ghost function Kids(s: RequestState): seq<Kid>
      reads s, remoteClient
    {
      KidsOf(s.request, s.workerProgress, remoteClient.requests)
    }

    ghost function ShardsOf(s: RequestState): Shards {
      remoteClient.data.Shards(s.request.filter)
    }

    ghost predicate Tracked(request: QueryRequest, progress: map<NodeId, WorkerProgress>) {
      progress.Keys == {selfNodeId} + Elements(Targets(request))
    }

    ghost predicate Linked(request: QueryRequest, progress: map<NodeId, WorkerProgress>,
        requests: map<Handle, RemoteRequest>) {
      forall c :: c in progress && c != selfNodeId && progress[c].submitted ==>
        (c, progress[c].remoteRequestId) in requests
            && requests[(c, progress[c].remoteRequestId)].filter == request.filter
    }

    ghost predicate Follows(s: RequestState)
      reads s, remoteClient
    {
      && s.request.HasVisitedNode(selfNodeId)
      && Tracked(s.request, s.workerProgress) && Linked(s.request, s.workerProgress, remoteClient.requests)
    }

    /** Sub-request `h` was opened by the record with this progress. */
    ghost predicate Owns(progress: map<NodeId, WorkerProgress>, h: Handle) {
      h.0 in progress && h.0 != selfNodeId && progress[h.0].submitted && progress[h.0].remoteRequestId == h.1
    }

    ghost predicate Configured()
      reads remoteClient
    {
      && remoteClient.overlay == overlay && remoteClient.Valid()
      && store == remoteClient.data.stores(selfNodeId) && parser == remoteClient.data.parser
    }

    // ----- pressure and chunk size

    ghost function Pressure(): real
      reads this`queryStates, queryStates`state, queryStates`aggregatedResult
    {
      PressureRatio(ActiveRequests(queryStates), CachedRows(queryStates))
    }

    /** What the other records, and the number of active ones, contribute to the pressure. */
    ghost function LoadOf(s: RequestState): Load
      reads this`queryStates, queryStates`state, (set t | t in queryStates && t != s)`aggregatedResult
    {
      Load(ActiveRequests(queryStates), CachedElsewhere(queryStates, s))
    }

    ghost predicate Listed(s: RequestState)
      reads this`queryStates
    {
      Listings(queryStates, s) == 1
    }

    /** A record's own window does not count for its load. */
    twostate lemma LoadKept(s: RequestState)
      requires queryStates == old(queryStates)
      requires forall t :: t in queryStates ==>
        t.state == old(t.state) && (t != s ==> t.aggregatedResult == old(t.aggregatedResult))
      ensures LoadOf(s) == old(LoadOf(s))
    {
    }

    lemma PressureFromLoad(s: RequestState)
      requires Listed(s)
      ensures Pressure() == LoadOf(s).At(|s.aggregatedResult.trips|)
    {
      CachedHereAndElsewhere(queryStates, s);
    }

    method GetCoordinatorPressureRatio() returns (pressure: real)
      ensures pressure == Pressure()
    {
      var activeRequests, cachedRows := 0, 0;
      var i := 0;
      while i < |queryStates|
        invariant i <= |queryStates|
        invariant activeRequests == ActiveRequests(queryStates[..i]) && cachedRows == CachedRows(queryStates[..i])
      {
        assert queryStates[..i + 1][..i] == queryStates[..i];
        var state := queryStates[i];
        if !state.IsTerminal() {
          activeRequests := activeRequests + 1;
        }
        cachedRows := cachedRows + |state.aggregatedResult.trips|;
        i := i + 1;
      }
      assert queryStates[..i] == queryStates;
      pressure := PressureRatio(activeRequests, cachedRows);
    }

    method ChooseAdaptiveChunkSize(requestedMaxRows: nat) returns (r: nat, ghost pressure: real)
      ensures pressure == Pressure() && r == AdaptiveChunk(requestedMaxRows, pressure)
    {
      var p := GetCoordinatorPressureRatio();
      r, pressure := AdaptiveChunk(requestedMaxRows, p), p;
    }

    // ----- one round of fetching

    method FetchLocalExecuteChunk(s: RequestState, maxRows: nat) returns (ghost pressure: real)
      requires Configured() && Follows(s) && maxRows > 0
      modifies s`workerProgress, s`aggregatedResult
      ensures Follows(s) && pressure == old(Pressure())
      ensures Abs(s) == LocalPulled(ShardsOf(s), old(Abs(s)), maxRows, pressure)
      ensures SameOwned(old(s.workerProgress), s.workerProgress)
    {
      var limit, p := ChooseAdaptiveChunkSize(maxRows);
      pressure := p;
      var progress := s.workerProgress[selfNodeId];
      if progress.completed {
        MergeEmpty(s.aggregatedResult);
        return;
      }
      var local := RunExecute(selfNodeId, store, parser, s.request.filter, progress.nextStartRow, limit,
          SCAN_ROW_BUDGET);
      s.MergePartialResult(local);
      s.UpdateWorkerProgress(selfNodeId, local.nextStartRow, local.hasMore);
      assert Kids(s) == old(Kids(s));
    }

    /** Only child `c`'s progress and its own or a new sub-request may differ between two moments. */
    ghost predicate OnlyChild(c: NodeId, progress: map<NodeId, WorkerProgress>,
        requests: map<Handle, RemoteRequest>, progress': map<NodeId, WorkerProgress>,
        requests': map<Handle, RemoteRequest>) {
      && (forall d :: d in progress && d != c ==> d in progress' && progress'[d] == progress[d])
      && (forall h :: h in requests && (h.0 != c || !Owns(progress, h)) ==>
          h in requests' && requests'[h] == requests[h])
      && (c in progress' && progress'[c].submitted ==>
            Owns(progress, (c, progress'[c].remoteRequestId)) || (c, progress'[c].remoteRequestId) !in requests)
    }

    lemma OnlyChildTwice(c: NodeId, p0: map<NodeId, WorkerProgress>, r0: map<Handle, RemoteRequest>,
        p1: map<NodeId, WorkerProgress>, r1: map<Handle, RemoteRequest>, p2: map<NodeId, WorkerProgress>,
        r2: map<Handle, RemoteRequest>)
      requires OnlyChild(c, p0, r0, p1, r1) && OnlyChild(c, p1, r1, p2, r2) && p0.Keys == p1.Keys && c in p1
        && c != selfNodeId
      ensures OnlyChild(c, p0, r0, p2, r2)
    {
    }

    /** Child `c`'s progress is replaced, and at most sub-request `h` of that child, its own or a new one, is
        written. */
    lemma ChildReplaced(request: QueryRequest, progress: map<NodeId, WorkerProgress>,
        requests: map<Handle, RemoteRequest>, c: NodeId, p: WorkerProgress, h: Handle,
        requests': map<Handle, RemoteRequest>)
      requires Tracked(request, progress) && Linked(request, progress, requests) && c in progress && c != selfNodeId
      requires requests' == requests || (h in requests' && requests' == requests[h := requests'[h]])
      requires h.0 == c && (Owns(progress, h) || h !in requests)
      requires p.submitted ==> h == (c, p.remoteRequestId) && h in requests' && requests'[h].filter == request.filter
      ensures Tracked(request, progress[c := p]) && Linked(request, progress[c := p], requests')
      ensures OnlyChild(c, progress, requests, progress[c := p], requests')
    {
    }

    /** Submits the sub-query on first use, with this node and all its children marked. */
    method EnsureSubmitted(s: RequestState, children: seq<NodeId>, c: NodeId, submit: SubmitEnv) returns (ok: bool)
      requires Configured() && Follows(s)
      requires children == Children(overlay, selfNodeId) && c in Targets(s.request) && !s.workerProgress[c].completed
      modifies s`workerProgress, remoteClient
      ensures Configured() && Follows(s)
      ensures var kid := old(KidOf(s.request, s.workerProgress, remoteClient.requests, c));
        && ok == (kid.progress.submitted || submit.Accepted?)
        && KidOf(s.request, s.workerProgress, remoteClient.requests, c)
            == kid.(progress := if ok then kid.progress.(submitted := true) else GiveUp(kid.progress))
      ensures OnlyChild(c, old(s.workerProgress), old(remoteClient.requests), s.workerProgress, remoteClient.requests)
    {
      var progress := s.workerProgress[c];
      ok := true;
      if !progress.submitted {
        var childReq := s.request.MarkVisitedNode(selfNodeId);
        childReq := MarkAll(childReq, children);
        assert Elements(childReq.visitedNodeIds) + {c}
            == PassedOn(overlay, selfNodeId, Elements(s.request.visitedNodeIds));
        var id;
        ghost var created;
        ok, id, created := remoteClient.SubmitSubQuery(c, childReq, submit);
        progress := progress.(remoteRequestId := id);
        progress := if ok then progress.(submitted := true) else progress.(completed := true, hasMore := false);
        ChildReplaced(s.request, s.workerProgress, old(remoteClient.requests), c, progress, (c, created),
            remoteClient.requests);
        s.workerProgress := s.workerProgress[c := progress];
      }
    }

    /** Fetches one chunk from a submitted child; a failed call completes the child. */
    method FetchSubmitted(s: RequestState, c: NodeId, maxRows: nat, fetch: FetchEnv) returns (ghost pressure: real)
      requires Configured() && Follows(s) && maxRows > 0
      requires c in Targets(s.request) && !s.workerProgress[c].completed && s.workerProgress[c].submitted
      modifies s`workerProgress, s`aggregatedResult, remoteClient
      ensures Configured() && Follows(s) && pressure == old(Pressure())
      ensures (KidOf(s.request, s.workerProgress, remoteClient.requests, c), s.aggregatedResult)
        == ChildPulled(ShardsOf(s), old(KidOf(s.request, s.workerProgress, remoteClient.requests, c)),
                       old(s.aggregatedResult), maxRows, CallEnv(pressure, true, fetch))
      ensures OnlyChild(c, old(s.workerProgress), old(remoteClient.requests), s.workerProgress, remoteClient.requests)
    {
      var progress := s.workerProgress[c];
      ghost var h := (c, progress.remoteRequestId);
      var want, p := ChooseAdaptiveChunkSize(maxRows);
      pressure := p;
      SubmittedPull(ShardsOf(s), KidOf(s.request, s.workerProgress, remoteClient.requests, c), maxRows,
          CallEnv(p, true, fetch));
      var ok, reply := remoteClient.FetchSubChunk(c, progress.remoteRequestId, want, fetch);
      if !ok {
        progress := progress.(completed := true, hasMore := false);
        ChildReplaced(s.request, s.workerProgress, old(remoteClient.requests), c, progress, h, remoteClient.requests);
        s.workerProgress := s.workerProgress[c := progress];
        MergeEmpty(s.aggregatedResult);
        return;
      }
      ChildReplaced(s.request, s.workerProgress, old(remoteClient.requests), c,
                    progress.(hasMore := !reply.done, completed := reply.done), h, remoteClient.requests);
      s.MergePartialResult(RemoteResult(c, reply));
      s.UpdateWorkerProgress(c, progress.nextStartRow, !reply.done);
    }

    /** One child's turn in a round. */
    method FetchRemoteChunk(s: RequestState, children: seq<NodeId>, c: NodeId, maxRows: nat, nc: NetCall)
        returns (ghost ce: CallEnv)
      requires Configured() && Follows(s) && maxRows > 0
      requires children == Children(overlay, selfNodeId) && c in Targets(s.request)
      modifies s`workerProgress, s`aggregatedResult, remoteClient
      ensures Configured() && Follows(s)
      ensures ce == CallEnv(old(Pressure()), nc.submit.Accepted?, nc.fetch)
      ensures (KidOf(s.request, s.workerProgress, remoteClient.requests, c), s.aggregatedResult)
        == ChildPulled(ShardsOf(s), old(KidOf(s.request, s.workerProgress, remoteClient.requests, c)),
                       old(s.aggregatedResult), maxRows, ce)
      ensures OnlyChild(c, old(s.workerProgress), old(remoteClient.requests), s.workerProgress, remoteClient.requests)
    {
      ce := CallEnv(Pressure(), nc.submit.Accepted?, nc.fetch);
      ghost var kid := KidOf(s.request, s.workerProgress, remoteClient.requests, c);
      MergeEmpty(s.aggregatedResult);
      NothingPulled(ShardsOf(s), kid, maxRows, ce);
      if s.workerProgress[c].completed {
        return;
      }
      var ok := EnsureSubmitted(s, children, c, nc.submit);
      if ok {
        ghost var sent, requests := s.workerProgress, remoteClient.requests;
        assert ce.pressure == Pressure();
        ghost var p := FetchSubmitted(s, c, maxRows, nc.fetch);
        OnlyChildTwice(c, old(s.workerProgress), old(remoteClient.requests), sent, requests, s.workerProgress,
            remoteClient.requests);
        SubmittedPullsAlike(ShardsOf(s), kid, maxRows, ce);
      }
    }

    /** A completed child is left alone, and one whose submission fails is given up. */
    lemma NothingPulled(sh: Shards, kid: Kid, maxRows: nat, ce: CallEnv)
      ensures kid.progress.completed ==> PullKid(sh, kid, maxRows, ce) == (kid, EMPTY_RESULT)
      ensures !kid.progress.completed && !kid.progress.submitted && !ce.submitAccepted ==>
        PullKid(sh, kid, maxRows, ce) == (kid.(progress := GiveUp(kid.progress)), EMPTY_RESULT)
    {
    }

    /** A child whose submission succeeds is pulled like one that was submitted before. */
    lemma SubmittedPullsAlike(sh: Shards, kid: Kid, maxRows: nat, ce: CallEnv)
      requires !kid.progress.completed && (kid.progress.submitted || ce.submitAccepted)
      ensures PullKid(sh, kid.(progress := kid.progress.(submitted := true)), maxRows,
        CallEnv(ce.pressure, true, ce.fetch))
           == PullKid(sh, kid, maxRows, ce)
    {
    }

    /** Marks every direct child as scheduled. */
    method MarkAll(request: QueryRequest, children: seq<NodeId>) returns (r: QueryRequest)
      ensures r.filter == request.filter
      ensures Elements(r.visitedNodeIds) == Elements(request.visitedNodeIds) + Elements(children)
    {
      r := request;
      var i := 0;
      while i < |children|
        invariant i <= |children| && r.filter == request.filter
        invariant Elements(r.visitedNodeIds) == Elements(request.visitedNodeIds) + Elements(children[..i])
      {
        r := r.MarkVisitedNode(children[i]);
        assert children[..i + 1] == children[..i] + [children[i]];
        i := i + 1;
      }
      assert children[..i] == children;
    }

    // ----- all children of one round

    /** Between two moments only the record's own or newly opened sub-requests changed. */
    ghost predicate OnlyOwnHandles(progress: map<NodeId, WorkerProgress>, requests: map<Handle, RemoteRequest>,
        progress': map<NodeId, WorkerProgress>, requests': map<Handle, RemoteRequest>) {
      && (forall h :: h in requests && !Owns(progress, h) ==> h in requests' && requests'[h] == requests[h])
      && (forall h :: Owns(progress', h) && !Owns(progress, h) ==> h !in requests)
    }

    ghost predicate OnlyOwn(progress: map<NodeId, WorkerProgress>, requests: map<Handle, RemoteRequest>,
        progress': map<NodeId, WorkerProgress>, requests': map<Handle, RemoteRequest>) {
      && OnlyOwnHandles(progress, requests, progress', requests')
      && (selfNodeId in progress ==> selfNodeId in progress' && progress'[selfNodeId] == progress[selfNodeId])
      && progress'.Keys == progress.Keys
    }

    lemma OnlyOwnStep(c: NodeId, p0: map<NodeId, WorkerProgress>, r0: map<Handle, RemoteRequest>,
        p1: map<NodeId, WorkerProgress>, r1: map<Handle, RemoteRequest>, p2: map<NodeId, WorkerProgress>,
        r2: map<Handle, RemoteRequest>)
      requires OnlyOwn(p0, r0, p1, r1) && OnlyChild(c, p1, r1, p2, r2) && p2.Keys == p1.Keys && c in p1
        && c != selfNodeId
      ensures OnlyOwn(p0, r0, p2, r2)
    {
      forall h | Owns(p2, h) && !Owns(p0, h) ensures h !in r0 {
        if h.0 == c { assert h == (c, p2[c].remoteRequestId); }
      }
    }

    /** A turn of child `Targets(request)[k]` leaves the other children as they were. */
    lemma OthersUntouched(request: QueryRequest, k: nat, progress: map<NodeId, WorkerProgress>,
        requests: map<Handle, RemoteRequest>, progress': map<NodeId, WorkerProgress>,
        requests': map<Handle, RemoteRequest>)
      requires DistinctChildren(overlay) && k < |Targets(request)|
      requires Tracked(request, progress) && Linked(request, progress, requests) && Tracked(request, progress')
      requires OnlyChild(Targets(request)[k], progress, requests, progress', requests')
      ensures forall j :: 0 <= j < |Targets(request)| && j != k ==>
        KidsOf(request, progress', requests')[j] == KidsOf(request, progress, requests)[j]
    {
      var targets := Targets(request);
      ScheduledDistinct(Children(overlay, selfNodeId), Elements(request.visitedNodeIds) + {selfNodeId});
      forall j | 0 <= j < |targets| && j != k
        ensures KidOf(request, progress', requests', targets[j]) == KidOf(request, progress, requests, targets[j])
      {
        assert targets[j] != targets[k] && targets[j] in progress;
      }
    }

    /** The round after `k` children: what it did to the children, to the window and to sub-requests of other
        records. */
    ghost predicate RoundState(s: RequestState, round: Round, k: nat)
      reads this, queryStates, s, remoteClient
    {
      && Configured() && Follows(s) && Listed(s) && round.load == LoadOf(s) && round.sh == ShardsOf(s)
      && round.At(k, KidsOf(s.request, s.workerProgress, remoteClient.requests), s.aggregatedResult)
      && OnlyOwn(round.progress, round.requests, s.workerProgress, remoteClient.requests)
    }

    /** The value side of one turn: from the state before it and what the child's chunk changed to the state after
        it. */
    lemma TurnTaken(s: RequestState, round: Round, k: nat, ce: CallEnv, progress: map<NodeId, WorkerProgress>,
        requests: map<Handle, RemoteRequest>, agg: QueryResult)
      requires Configured() && Follows(s) && Listed(s) && round.load == LoadOf(s) && round.sh == ShardsOf(s)
      requires DistinctChildren(overlay) && k < |Targets(s.request)|
      requires Tracked(s.request, progress) && Linked(s.request, progress, requests)
      requires round.At(k, KidsOf(s.request, progress, requests), agg)
      requires OnlyOwn(round.progress, round.requests, progress, requests) && ce == round.Turn(k, |agg.trips|)
      requires OnlyChild(Targets(s.request)[k], progress, requests, s.workerProgress, remoteClient.requests)
      requires (KidOf(s.request, s.workerProgress, remoteClient.requests, Targets(s.request)[k]), s.aggregatedResult)
        == ChildPulled(round.sh, KidOf(s.request, progress, requests, Targets(s.request)[k]), agg, round.maxRows, ce)
      ensures RoundState(s, round, k + 1)
    {
      OthersUntouched(s.request, k, progress, requests, s.workerProgress, remoteClient.requests);
      round.Step(k, KidsOf(s.request, progress, requests), agg, Kids(s), s.aggregatedResult);
      OnlyOwnStep(Targets(s.request)[k], round.progress, round.requests, progress, requests, s.workerProgress,
          remoteClient.requests);
    }

    /** The turn of the next target. */
    method FetchTarget(s: RequestState, children: seq<NodeId>, c: NodeId, nc: NetCall, ghost round: Round,
        maxRows: nat, ghost k: nat)
      requires RoundState(s, round, k) && DistinctChildren(overlay) && round.maxRows == maxRows > 0
      requires children == Children(overlay, selfNodeId)
      requires k < |Targets(s.request)| && Targets(s.request)[k] == c && nc == NetAt(round.net, k)
      modifies s`workerProgress, s`aggregatedResult, remoteClient
      ensures RoundState(s, round, k + 1)
    {
      PressureFromLoad(s);
      ghost var ce := FetchRemoteChunk(s, children, c, maxRows, nc);
      assert ce == round.Turn(k, |old(s.aggregatedResult).trips|);
      LoadKept(s);
      TurnTaken(s, round, k, ce, old(s.workerProgress), old(remoteClient.requests), old(s.aggregatedResult));
    }

    /** The loop over the children: every target has its turn. */
    method FetchTargets(s: RequestState, maxRows: nat, net: seq<NetCall>, ghost round: Round)
      requires RoundState(s, round, 0) && DistinctChildren(overlay) && round.maxRows == maxRows > 0 && round.net == net
      modifies s`workerProgress, s`aggregatedResult, remoteClient
      ensures RoundState(s, round, |round.kids|)
    {
      var children := Children(overlay, selfNodeId);
      ghost var visited := Elements(s.request.visitedNodeIds) + {selfNodeId};
      NoTargetsYet(children, visited);
      var i, k := 0, 0;
      while i < |children|
        invariant TargetsSeen(children, visited, i, k)
        invariant RoundState(s, round, k)
      {
        k := FetchOrSkip(s, children, maxRows, net, round, i, k);
        i := i + 1;
      }
      AllTargetsSeen(children, visited, k);
    }

    /** One child of the loop: passed over if it is visited, else it is the next target. */
    method FetchOrSkip(s: RequestState, children: seq<NodeId>, maxRows: nat, net: seq<NetCall>, ghost round: Round,
        i: nat, k: nat) returns (k': nat)
      requires RoundState(s, round, k) && DistinctChildren(overlay) && round.maxRows == maxRows > 0 && round.net == net
      requires children == Children(overlay, selfNodeId) && i < |children|
      requires TargetsSeen(children, Elements(s.request.visitedNodeIds) + {selfNodeId}, i, k)
      modifies s`workerProgress, s`aggregatedResult, remoteClient
      ensures RoundState(s, round, k')
      ensures TargetsSeen(children, Elements(s.request.visitedNodeIds) + {selfNodeId}, i + 1, k')
    {
      var c := children[i];
      ghost var visited := Elements(s.request.visitedNodeIds) + {selfNodeId};
      NextTarget(children, visited, i, k);
      assert s.request.HasVisitedNode(c) <==> c in visited;
      k' := k;
      if !s.request.HasVisitedNode(c) {
        FetchTarget(s, children, c, NetAt(net, k), round, maxRows, k);
        k' := k + 1;
      }
    }

    /** One chunk from every child that is neither visited nor completed. */
    method FetchRemoteExecuteChunks(s: RequestState, maxRows: nat, net: seq<NetCall>)
      requires Configured() && Follows(s) && Listed(s) && DistinctChildren(overlay) && maxRows > 0
      modifies s`workerProgress, s`aggregatedResult, remoteClient
      ensures Configured() && Follows(s)
      ensures Abs(s) == KidsPulled(ShardsOf(s), old(Abs(s)), maxRows, old(LoadOf(s)), net)
      ensures OnlyOwn(old(s.workerProgress), old(remoteClient.requests), s.workerProgress, remoteClient.requests)
    {
      ghost var round :=
        Round(ShardsOf(s), Kids(s), s.aggregatedResult, s.workerProgress, remoteClient.requests, LoadOf(s), maxRows,
            net);
      round.Begin();
      FetchTargets(s, maxRows, net, round);
      round.End(Kids(s), s.aggregatedResult);
    }

    // ----- one fetch

    lemma WorkersCompletedAgree(s: RequestState)
      requires Follows(s)
      ensures s.AllWorkersCompleted() <==> AllCompleted(Abs(s))
    {
      var targets := Targets(s.request);
      assert s.workerProgress.Keys != {} by { assert selfNodeId in s.workerProgress; }
      if AllCompleted(Abs(s)) {
        forall n | n in s.workerProgress ensures s.workerProgress[n].completed {
          if n != selfNodeId {
            var j :| 0 <= j < |targets| && targets[j] == n;
            assert Abs(s).kids[j].progress.completed;
          }
        }
      }
      if s.AllWorkersCompleted() {
        forall j | 0 <= j < |targets| ensures Abs(s).kids[j].progress.completed {
          assert targets[j] in s.workerProgress;
        }
      }
    }

    /** Local shard and children, in the order of this round. */
    method FetchBoth(s: RequestState, maxRows: nat, net: seq<NetCall>)
      requires Configured() && Follows(s) && Listed(s) && DistinctChildren(overlay) && maxRows > 0
      modifies s`workerProgress, s`aggregatedResult, remoteClient
      ensures Configured() && Follows(s)
      ensures Abs(s) == BothPulled(ShardsOf(s), old(Abs(s)), maxRows, old(LoadOf(s)), net)
      ensures OnlyOwnHandles(old(s.workerProgress), old(remoteClient.requests), s.workerProgress, remoteClient.requests)
    {
      if s.ShouldFetchRemoteFirst() {
        FetchRemoteFirst(s, maxRows, net);
      } else {
        FetchLocalFirst(s, maxRows, net);
      }
    }

    /** A step that leaves the owned sub-requests as they are, before or after one that touches only those. */
    lemma OwnedThroughout(p0: map<NodeId, WorkerProgress>, r0: map<Handle, RemoteRequest>,
        p1: map<NodeId, WorkerProgress>, p2: map<NodeId, WorkerProgress>, r2: map<Handle, RemoteRequest>)
      requires (SameOwned(p0, p1) && OnlyOwnHandles(p1, r0, p2, r2))
        || (OnlyOwnHandles(p0, r0, p1, r2) && SameOwned(p1, p2))
      ensures OnlyOwnHandles(p0, r0, p2, r2)
    {
    }

    method FetchRemoteFirst(s: RequestState, maxRows: nat, net: seq<NetCall>)
      requires Configured() && Follows(s) && Listed(s) && DistinctChildren(overlay) && maxRows > 0
        && s.fetchRound % 2 == 1
      modifies s`workerProgress, s`aggregatedResult, remoteClient
      ensures Configured() && Follows(s)
      ensures Abs(s) == BothPulled(ShardsOf(s), old(Abs(s)), maxRows, old(LoadOf(s)), net)
      ensures OnlyOwnHandles(old(s.workerProgress), old(remoteClient.requests), s.workerProgress, remoteClient.requests)
    {
      ghost var req, load := Abs(s), LoadOf(s);
      FetchRemoteExecuteChunks(s, maxRows, net);
      assert LoadOf(s) == load;
      ghost var mid, progress := Abs(s), s.workerProgress;
      FetchLocal(s, maxRows);
      OwnedThroughout(old(s.workerProgress), old(remoteClient.requests), progress, s.workerProgress,
          remoteClient.requests);
      KidsFirst(ShardsOf(s), req, maxRows, load, net, mid, Abs(s));
    }

    method FetchLocalFirst(s: RequestState, maxRows: nat, net: seq<NetCall>)
      requires Configured() && Follows(s) && Listed(s) && DistinctChildren(overlay) && maxRows > 0
        && s.fetchRound % 2 != 1
      modifies s`workerProgress, s`aggregatedResult, remoteClient
      ensures Configured() && Follows(s)
      ensures Abs(s) == BothPulled(ShardsOf(s), old(Abs(s)), maxRows, old(LoadOf(s)), net)
      ensures OnlyOwnHandles(old(s.workerProgress), old(remoteClient.requests), s.workerProgress, remoteClient.requests)
    {
      ghost var req, load := Abs(s), LoadOf(s);
      FetchLocal(s, maxRows);
      assert LoadOf(s) == load;
      ghost var mid, progress := Abs(s), s.workerProgress;
      FetchRemoteExecuteChunks(s, maxRows, net);
      OwnedThroughout(old(s.workerProgress), old(remoteClient.requests), progress, s.workerProgress,
          remoteClient.requests);
      LocalFirst(ShardsOf(s), req, maxRows, load, net, mid, Abs(s));
    }

    /** The local chunk under this record's load. */
    method FetchLocal(s: RequestState, maxRows: nat)
      requires Configured() && Follows(s) && Listed(s) && maxRows > 0
      modifies s`workerProgress, s`aggregatedResult
      ensures Follows(s)
      ensures Abs(s) == LocalPulled(ShardsOf(s), old(Abs(s)), maxRows, old(LoadOf(s).At(|Abs(s).agg.trips|)))
      ensures SameOwned(old(s.workerProgress), s.workerProgress)
    {
      PressureFromLoad(s);
      ghost var p := FetchLocalExecuteChunk(s, maxRows);
    }

    ghost predicate SameOwned(p: map<NodeId, WorkerProgress>, q: map<NodeId, WorkerProgress>) {
      forall h :: Owns(p, h) <==> Owns(q, h)
    }

    /** A window that was read is dropped. */
    method DropReadWindow(s: RequestState)
      modifies s`aggregatedResult, s`nextUnreadIndex
      ensures Abs(s) == Emptied(old(Abs(s)))
    {
      if s.nextUnreadIndex >= |s.aggregatedResult.trips| {
        s.ClearAggregatedRows();
      }
    }

    /** The next round is due, and without open workers the request is completed. */
    method EndRound(s: RequestState)
      requires Follows(s)
      modifies s`fetchRound, s`state
      ensures Follows(s) && Abs(s) == RoundEnded(old(Abs(s)))
    {
      WorkersCompletedAgree(s);
      s.fetchRound := s.fetchRound + 1;
      if s.AllWorkersCompleted() {
        s.state := Completed;
      }
    }

    /** Fills the window of one record. */
    method FetchNextExecuteChunks(s: RequestState, maxRows: nat, net: seq<NetCall>)
      requires Configured() && Follows(s) && Listed(s) && DistinctChildren(overlay) && maxRows > 0
      modifies s, remoteClient
      ensures Configured() && Follows(s)
      ensures Abs(s) == Pull(ShardsOf(s), old(Abs(s)), maxRows,
        old(RoundEnv(LoadOf(s), ShardsOf(s), Abs(s), maxRows, net)))
      ensures OnlyOwnHandles(old(s.workerProgress), old(remoteClient.requests), s.workerProgress, remoteClient.requests)
    {
      ghost var req, load := Abs(s), LoadOf(s);
      DropReadWindow(s);
      FetchBoth(s, maxRows, net);
      ghost var both := Abs(s);
      EndRound(s);
      PullAssembles(ShardsOf(s), req, maxRows, load, net, both, Abs(s));
    }

    /** Hands out unread rows and moves the cursor. */
    method ServeWindow(s: RequestState, limit: nat) returns (reply: Reply)
      requires Follows(s)
      modifies s`nextUnreadIndex, s`state
      ensures Follows(s) && (Abs(s), reply) == Serve(old(Abs(s)), limit)
    {
      WorkersCompletedAgree(s);
      var start, available := s.nextUnreadIndex, |s.aggregatedResult.trips|;
      if start >= available {
        return Reply([], [], s.AllWorkersCompleted());
      }
      var take := Min(limit, available - start);
      var sources := if |s.aggregatedResult.sources| >= start + take
          then s.aggregatedResult.sources[start..start + take]
                     else Repeat(selfNodeId, take);
      reply := Reply(s.aggregatedResult.trips[start..start + take], sources, false);
      s.nextUnreadIndex := start + take;
      if s.nextUnreadIndex >= |s.aggregatedResult.trips| && s.AllWorkersCompleted() {
        s.state := Completed;
        reply := reply.(done := true);
      }
      RowsHandedOut(old(Abs(s)), limit, start + take, Abs(s), reply);
    }

    /** Refills a read window as long as some worker has more. */
    method FillIfRead(s: RequestState, limit: nat, net: seq<NetCall>)
      requires Configured() && Follows(s) && Listed(s) && DistinctChildren(overlay) && limit > 0
      modifies s, remoteClient
      ensures Configured() && Follows(s)
      ensures var sh, req, load := ShardsOf(s), old(Abs(s)), old(LoadOf(s));
        Abs(s) == if WindowRead(req)
            && !AllCompleted(req) then Pull(sh, req, limit, RoundEnv(load, sh, req, limit, net)) else req
      ensures OnlyOwnHandles(old(s.workerProgress), old(remoteClient.requests), s.workerProgress, remoteClient.requests)
    {
      WorkersCompletedAgree(s);
      if s.nextUnreadIndex >= |s.aggregatedResult.trips| && !s.AllWorkersCompleted() {
        FetchNextExecuteChunks(s, limit, net);
      }
    }

    /** Serves one fetch on one record: the in-place code does what the protocol says, under the
        load that the coordinator's records make at each step and the given network. */
    method FetchChunk(s: RequestState, maxRows: nat, net: seq<NetCall>) returns (reply: Reply)
      requires Configured() && Follows(s) && Listed(s) && DistinctChildren(overlay)
      modifies s, remoteClient
      ensures Configured() && Follows(s)
      ensures var sh, req, load := ShardsOf(s), old(Abs(s)), old(LoadOf(s));
        (Abs(s), reply) == Fetch(sh, req, maxRows, EnvOf(load, sh, req, maxRows, net))
      ensures OnlyOwnHandles(old(s.workerProgress), old(remoteClient.requests), s.workerProgress, remoteClient.requests)
    {
      if s.state == Cancelled || s.state == TimedOut {
        return STOPPED_REPLY;
      }
      var limit, p := ChooseAdaptiveChunkSize(maxRows);
      PressureFromLoad(s);
      FillIfRead(s, limit, net);
      LiveFetch(ShardsOf(s), old(Abs(s)), maxRows, old(LoadOf(s)), net);
      reply := ServeWindow(s, limit);
    }

    // ----- the request table

    /** No sub-request belongs to two records. */
    ghost predicate Separate(p: map<NodeId, WorkerProgress>, q: map<NodeId, WorkerProgress>) {
      forall h :: !(Owns(p, h) && Owns(q, h))
    }

    ghost predicate RecordsFollow(states: seq<RequestState>)
      reads states, remoteClient
    {
      forall i {:trigger Follows(states[i])} :: 0 <= i < |states| ==> Follows(states[i])
    }

    ghost predicate RecordsSeparate(states: seq<RequestState>)
      reads states
    {
      forall i, j {:trigger Separate(states[i].workerProgress, states[j].workerProgress)} ::
        0 <= i < |states| && 0 <= j < |states| && i != j ==>
          Separate(states[i].workerProgress, states[j].workerProgress)
    }

    ghost predicate Valid()
      reads this, queryStates, remoteClient
    {
      && Configured() && DistinctChildren(overlay)
      && (forall i :: 0 <= i < |queryStates| ==> queryStates[i].queryId < nextQuerySeq)
      && RecordsDistinct(queryStates) && RecordsFollow(queryStates) && RecordsSeparate(queryStates)
    }

    /** A record whose sub-requests are not touched keeps its abstract state and its links. */
    lemma ForeignUntouched(request: QueryRequest, progress: map<NodeId, WorkerProgress>,
        requests: map<Handle, RemoteRequest>, p0: map<NodeId, WorkerProgress>, p1: map<NodeId, WorkerProgress>,
        requests': map<Handle, RemoteRequest>)
      requires Tracked(request, progress) && Linked(request, progress, requests)
      requires Separate(progress, p0) && OnlyOwnHandles(p0, requests, p1, requests')
      ensures KidsOf(request, progress, requests') == KidsOf(request, progress, requests)
      ensures Linked(request, progress, requests') && Separate(progress, p1) && Separate(p1, progress)
    {
      forall c | c in progress && c != selfNodeId && progress[c].submitted
        ensures var h := (c, progress[c].remoteRequestId); h in requests' && requests'[h] == requests[h]
      {
        assert Owns(progress, (c, progress[c].remoteRequestId));
      }
      forall h ensures !(Owns(progress, h) && Owns(p1, h)) {
        if Owns(progress, h) { assert h in requests; }
      }
      forall j | 0 <= j < |Targets(request)|
        ensures KidOf(request, progress, requests', Targets(request)[j])
          == KidOf(request, progress, requests, Targets(request)[j])
      {
        var c := Targets(request)[j];
        assert c in progress && c != selfNodeId;
      }
    }

    lemma ForeignRecord(t: RequestState, requests: map<Handle, RemoteRequest>, p0: map<NodeId, WorkerProgress>,
        p1: map<NodeId, WorkerProgress>)
      requires t.request.HasVisitedNode(selfNodeId) && Tracked(t.request, t.workerProgress)
        && Linked(t.request, t.workerProgress, requests)
      requires Separate(t.workerProgress, p0) && OnlyOwnHandles(p0, requests, p1, remoteClient.requests)
      ensures Follows(t) && Abs(t).kids == KidsOf(t.request, t.workerProgress, requests)
      ensures Separate(t.workerProgress, p1) && Separate(p1, t.workerProgress)
    {
      ForeignUntouched(t.request, t.workerProgress, requests, p0, p1, remoteClient.requests);
    }

    /** The record with this id, by linear search. */
    method FindRequestState(requestId: nat) returns (found: bool, i: nat)
      ensures found ==> i < |queryStates| && queryStates[i].queryId == requestId
      ensures !found ==> forall j :: 0 <= j < |queryStates| ==> queryStates[j].queryId != requestId
    {
      i := 0;
      while i < |queryStates|
        invariant i <= |queryStates| && forall j :: 0 <= j < i ==> queryStates[j].queryId != requestId
      {
        if queryStates[i].queryId == requestId {
          return true, i;
        }
        i := i + 1;
      }
      found := false;
    }

    /** After a fetch on record `i` the table is consistent and every other record is as it was. */
    twostate lemma OthersKept(i: nat)
      requires old(Valid()) && queryStates == old(queryStates) && nextQuerySeq == old(nextQuerySeq) && i < |queryStates|
      requires Configured() && Follows(queryStates[i])
      requires forall j :: 0 <= j < |queryStates| && j != i ==> unchanged(queryStates[j])
      requires OnlyOwnHandles(old(queryStates[i].workerProgress), old(remoteClient.requests),
        queryStates[i].workerProgress, remoteClient.requests)
      ensures Valid()
      ensures forall j :: 0 <= j < |queryStates| && j != i ==> Abs(queryStates[j]) == old(Abs(queryStates[j]))
    {
      forall j | 0 <= j < |queryStates| && j != i
        ensures Follows(queryStates[j]) && Abs(queryStates[j]) == old(Abs(queryStates[j]))
        ensures Separate(queryStates[j].workerProgress, queryStates[i].workerProgress)
        ensures Separate(queryStates[i].workerProgress, queryStates[j].workerProgress)
      {
        assert old(Follows(queryStates[j]));
        ForeignRecord(queryStates[j], old(remoteClient.requests), old(queryStates[i].workerProgress),
            queryStates[i].workerProgress);
      }
      assert forall j, k :: 0 <= j < |queryStates| && 0 <= k < |queryStates| && j != k && j != i && k != i ==>
        Separate(queryStates[j].workerProgress, queryStates[k].workerProgress);
    }

    /** The fetch RPC: the named record moves by the protocol, under the coordinator's load and the
        given network; every other record keeps its state. */
    method FetchChunkForRpc(requestId: nat, maxRows: nat, net: seq<NetCall>) returns (out: RpcChunkResult, i: nat)
      requires Valid()
      modifies queryStates, remoteClient
      ensures Valid()
      ensures out.found <==> exists j :: 0 <= j < |queryStates| && queryStates[j].queryId == requestId
      ensures !out.found ==> out.reply == Reply([], [], true)
      ensures out.found ==> i < |queryStates| && queryStates[i].queryId == requestId
      ensures out.found ==>
        var sh, req, load := ShardsOf(queryStates[i]), old(Abs(queryStates[i])), old(LoadOf(queryStates[i]));
        (Abs(queryStates[i]), out.reply) == Fetch(sh, req, maxRows, EnvOf(load, sh, req, maxRows, net))
      ensures forall j :: 0 <= j < |queryStates| && !(out.found && j == i) ==>
        Abs(queryStates[j]) == old(Abs(queryStates[j]))
    {
      var found;
      found, i := FindRequestState(requestId);
      if !found {
        out := RpcChunkResult(false, Reply([], [], true));
        return;
      }
      var s := queryStates[i];
      DistinctListedOnce(queryStates, s);
      DistinctFrom(queryStates, i);
      var reply := FetchChunk(s, maxRows, net);
      out := RpcChunkResult(true, reply);
      OthersKept(i);
    }

    // ----- submission, cancel and timeout

    /** Fresh progress for this node and for the unvisited ones among the first `i` children. */
    ghost predicate TrackedUpTo(children: seq<NodeId>, visited: set<NodeId>, i: nat,
        progress: map<NodeId, WorkerProgress>) {
      && i <= |children|
      && (forall c :: c in progress <==> c == selfNodeId || c in Scheduled(children[..i], visited))
      && (forall c :: c in progress ==> progress[c] == NEW_WORKER)
    }

    lemma TrackedNext(children: seq<NodeId>, visited: set<NodeId>, i: nat, progress: map<NodeId, WorkerProgress>,
        progress': map<NodeId, WorkerProgress>)
      requires TrackedUpTo(children, visited, i, progress) && i < |children|
      requires progress' == if children[i] in visited || children[i] in progress then progress
                            else progress[children[i] := NEW_WORKER]
      ensures TrackedUpTo(children, visited, i + 1, progress')
    {
      assert children[..i + 1][..i] == children[..i];
    }

    /** One progress entry for the local worker and one for every child not yet visited. */
    method InitializeExecuteProgress(s: RequestState)
      requires s.request.HasVisitedNode(selfNodeId) && s.workerProgress == map[]
      modifies s`workerProgress, s`expectedWorkers
      ensures Tracked(s.request, s.workerProgress)
      ensures forall c :: c in s.workerProgress ==> s.workerProgress[c] == NEW_WORKER
      ensures s.expectedWorkers == 1 + |Targets(s.request)|
    {
      var expectedWorkers := 1;
      s.InitializeWorker(selfNodeId);
      var children := Children(overlay, selfNodeId);
      ghost var visited := Elements(s.request.visitedNodeIds) + {selfNodeId};
      NoTargetsYet(children, visited);
      var i := 0;
      while i < |children|
        invariant TargetsSeen(children, visited, i, expectedWorkers - 1)
        invariant TrackedUpTo(children, visited, i, s.workerProgress)
      {
        ghost var progress := s.workerProgress;
        NextTarget(children, visited, i, expectedWorkers - 1);
        assert s.request.HasVisitedNode(children[i]) <==> children[i] in visited;
        if !s.request.HasVisitedNode(children[i]) {
          s.InitializeWorker(children[i]);
          expectedWorkers := expectedWorkers + 1;
        }
        TrackedNext(children, visited, i, progress, s.workerProgress);
        i := i + 1;
      }
      assert children[..i] == children;
      AllTargetsSeen(children, visited, expectedWorkers - 1);
      s.expectedWorkers := expectedWorkers;
    }

    /** A record with fresh progress is the protocol's start state for its visited list. */
    lemma FreshRecordIsStart(request: QueryRequest, progress: map<NodeId, WorkerProgress>,
        requests: map<Handle, RemoteRequest>)
      requires Tracked(request, progress) && forall c :: c in progress ==> progress[c] == NEW_WORKER
      ensures KidsOf(request, progress, requests)
        == Start(ForwardPlan(overlay, selfNodeId, Elements(request.visitedNodeIds))).kids
    {
      var plan := ForwardPlan(overlay, selfNodeId, Elements(request.visitedNodeIds));
      var targets := Targets(request);
      assert |plan.kids| == |targets|;
      forall j | 0 <= j < |targets| ensures KidOf(request, progress, requests, targets[j]) == StartAll(plan.kids)[j] {
        assert targets[j] in progress;
        assert plan.kids[j] == ForwardPlan(overlay, targets[j],
            PassedOn(overlay, selfNodeId, Elements(request.visitedNodeIds)));
      }
    }

    method NewRecord(id: nat, received: QueryRequest) returns (s: RequestState)
      requires Configured()
      ensures fresh(s) && s.queryId == id && s.request.filter == received.filter && Follows(s)
      ensures Abs(s) == Start(ForwardPlan(overlay, selfNodeId, Elements(received.visitedNodeIds) + {selfNodeId}))
      ensures forall h :: !Owns(s.workerProgress, h)
    {
      var request := received.MarkVisitedNode(selfNodeId);
      s := new RequestState(id, request);
      s.state := InProgress;
      InitializeExecuteProgress(s);
      FreshRecordIsStart(s.request, s.workerProgress, remoteClient.requests);
    }

    /** Accepts a client query or a sub-query: a new record in its start state, nothing fetched, no other record
        touched. */
    method Submit(received: QueryRequest) returns (id: nat, s: RequestState)
      requires Valid()
      modifies this
      ensures Valid() && fresh(s) && id == s.queryId && s.request.filter == received.filter
      ensures queryStates == old(queryStates) + [s] && id == old(nextQuerySeq) && nextQuerySeq == id + 1
      ensures Abs(s) == Start(ForwardPlan(overlay, selfNodeId, Elements(received.visitedNodeIds) + {selfNodeId}))
      ensures forall j :: 0 <= j < |old(queryStates)| ==> Abs(queryStates[j]) == old(Abs(queryStates[j]))
    {
      id := nextQuerySeq;
      nextQuerySeq := nextQuerySeq + 1;
      s := NewRecord(id, received);
      queryStates := queryStates + [s];
      RecordAppended(s);
    }

    twostate lemma RecordAppended(new s: RequestState)
      requires old(Valid()) && queryStates == old(queryStates) + [s] && nextQuerySeq == old(nextQuerySeq) + 1
      requires unchanged(remoteClient) && forall j :: 0 <= j < |old(queryStates)| ==> unchanged(old(queryStates)[j])
      requires Follows(s) && s.queryId == old(nextQuerySeq) && s !in old(queryStates)
        && forall h :: !Owns(s.workerProgress, h)
      ensures Valid()
      ensures forall j :: 0 <= j < |old(queryStates)| ==> Abs(queryStates[j]) == old(Abs(queryStates[j]))
    {
      AddRecord(old(queryStates), s, s.queryId);
    }

    lemma AddRecord(states: seq<RequestState>, s: RequestState, id: nat)
      requires RecordsFollow(states) && RecordsSeparate(states) && RecordsDistinct(states)
      requires Follows(s) && s.queryId == id && s !in states && (forall h :: !Owns(s.workerProgress, h))
      requires forall i :: 0 <= i < |states| ==> states[i].queryId < id
      ensures RecordsFollow(states + [s]) && RecordsSeparate(states + [s]) && RecordsDistinct(states + [s])
    {
      var all, n := states + [s], |states|;
      assert all[n] == s && forall i :: 0 <= i < n ==> all[i] == states[i];
      assert RecordsDistinct(all);
      forall i, j | 0 <= i <= n && 0 <= j <= n
          && i != j ensures Separate(all[i].workerProgress, all[j].workerProgress) {
        if i < n && j < n {
          assert Separate(states[i].workerProgress, states[j].workerProgress);
        }
      }
    }

    /** A cancel or timeout changes the phase of one record and nothing else. */
    method Interrupt(requestId: nat, phase: Phase) returns (found: bool, i: nat)
      requires Valid() && (phase.Cancelled? || phase.TimedOut?)
      modifies queryStates
      ensures Valid()
      ensures found <==> exists j :: 0 <= j < |queryStates| && queryStates[j].queryId == requestId
      ensures found ==> i < |queryStates| && queryStates[i].queryId == requestId
      ensures found ==> Abs(queryStates[i]) == old(Abs(queryStates[i])).(phase := phase)
      ensures forall j :: 0 <= j < |queryStates| && !(found && j == i) ==>
        Abs(queryStates[j]) == old(Abs(queryStates[j]))
    {
      found, i := FindRequestState(requestId);
      if found {
        DistinctFrom(queryStates, i);
        queryStates[i].state := phase;
      }
    }
  }
}
