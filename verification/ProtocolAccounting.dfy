/** What holds of every request of the tree at once, in every run: bounded windows, a phase that
    tells whether work is left, and books that balance between each parent and its children. */
module ProtocolAccounting {
  import opened Results
  import opened LocalScan
  import opened ChunkSizing
  import opened Forwarding
  import opened Protocol
  import opened ProtocolInvariants

  // ----- windows and phases

  /** A worker has more exactly as long as it is not completed. */
  predicate Plain(p: Progress) {
    p.hasMore <==> !p.completed
  }

  /** One large chunk per worker at most; unless it was stopped, the request is COMPLETED when no worker has more,
      and else IN_PROGRESS; and no child has a cursor of its own. */
  ghost predicate InOrder(req: Req) {
    && |req.agg.trips| <= (1 + |req.kids|) * LARGE_CHUNK_SIZE
    && (Stopped(req) || req.phase == if AllCompleted(req) then Completed else InProgress)
    && Plain(req.local) && !req.local.submitted && PlainKids(req.kids)
  }

  ghost predicate PlainKids(kids: seq<Kid>) {
    forall i :: 0 <= i < |kids| ==> Plain(kids[i].progress) && kids[i].progress.nextStartRow == 0
  }

  ghost predicate AllInOrder(req: Req) {
    InOrder(req) && forall i :: 0 <= i < |req.kids| ==> AllInOrder(req.kids[i].remote)
  }

  ghost predicate KidsInOrder(kids: seq<Kid>) {
    forall i :: 0 <= i < |kids| ==> AllInOrder(kids[i].remote)
  }

  lemma {:induction false} StartInOrder(p: Plan)
    ensures AllInOrder(Start(p))
    decreases p
  {
    forall i | 0 <= i < |p.kids| ensures AllInOrder(Start(p).kids[i].remote) {
      StartInOrder(p.kids[i]);
    }
  }

  lemma {:induction false} PullKidInOrder(sh: Shards, kid: Kid, maxRows: nat, ce: CallEnv)
    requires WellFormed(sh, kid.remote) && AllInOrder(kid.remote)
    ensures AllInOrder(PullKid(sh, kid, maxRows, ce).0.remote)
    decreases kid
  {
    var want := AdaptiveChunk(maxRows, ce.pressure);
    match ce.fetch
    case Undelivered =>
    case ReplyLost(env) => FetchInOrder(sh, kid.remote, want, env);
    case Replied(env) => FetchInOrder(sh, kid.remote, want, env);
  }

  lemma {:induction false} PullKidsInOrder(sh: Shards, kids: seq<Kid>, maxRows: nat, calls: seq<CallEnv>)
    requires AllWellFormed(sh, kids) && KidsInOrder(kids)
    ensures KidsInOrder(PullKids(sh, kids, maxRows, calls).0)
    decreases kids
  {
    if kids != [] {
      var k := |kids| - 1;
      PullKidsInOrder(sh, kids[..k], maxRows, calls);
      PullKidInOrder(sh, kids[k], maxRows, CallAt(calls, k));
    }
  }

  lemma {:induction false} PullKidsPlain(sh: Shards, kids: seq<Kid>, maxRows: nat, calls: seq<CallEnv>)
    requires PlainKids(kids)
    ensures PlainKids(PullKids(sh, kids, maxRows, calls).0)
    decreases kids
  {
    if kids != [] {
      var k := |kids| - 1;
      PullKidsPlain(sh, kids[..k], maxRows, calls);
      PullKidPlain(sh, kids[k], maxRows, CallAt(calls, k));
    }
  }

  lemma PullKidPlain(sh: Shards, kid: Kid, maxRows: nat, ce: CallEnv)
    requires Plain(kid.progress) && kid.progress.nextStartRow == 0
    ensures var p := PullKid(sh, kid, maxRows, ce).0.progress; Plain(p) && p.nextStartRow == 0
  {
  }

  lemma PullLocalPlain(sh: Shards, node: NodeId, local: Progress, maxRows: nat, pressure: real)
    requires Plain(local)
    ensures var p := PullLocal(sh, node, local, maxRows, pressure).0; Plain(p) && p.submitted == local.submitted
  {
  }

  /** The request itself: its window, its phase and its workers' progress. */
  lemma SelfInOrder(sh: Shards, req: Req, maxRows: nat, env: Env)
    requires WellFormed(sh, req) && InOrder(req)
    ensures InOrder(Fetch(sh, req, maxRows, env).0)
  {
    var next := Fetch(sh, req, maxRows, env).0;
    FetchIsBounded(sh, req, maxRows, env);
    ChunksWithinLarge(1 + |req.kids|, AdaptiveChunk(maxRows, env.pressure));
    PhaseTells(sh, req, maxRows, env);
    FetchMoves(sh, req, maxRows, env);
    PullLocalPlain(sh, req.node, req.local, AdaptiveChunk(maxRows, env.pressure), env.localPressure);
    PullKidsPlain(sh, req.kids, AdaptiveChunk(maxRows, env.pressure), env.calls);
  }

  lemma PhaseTells(sh: Shards, req: Req, maxRows: nat, env: Env)
    requires Stopped(req) || req.phase == if AllCompleted(req) then Completed else InProgress
    ensures var next := Fetch(sh, req, maxRows, env).0;
      Stopped(next) || next.phase == if AllCompleted(next) then Completed else InProgress
  {
    if env.interrupt.NoInterrupt? && !Stopped(req) {
      var limit := AdaptiveChunk(maxRows, env.pressure);
      if Refills(req) {
        var next := Pull(sh, req, limit, env);
        FilledPhase(req, PullLocal(sh, req.node, req.local, limit, env.localPressure),
            PullKids(sh, req.kids, limit, env.calls));
        ServePhase(next, limit);
      } else {
        ServePhase(req, limit);
      }
    }
  }

  lemma FilledPhase(req: Req, here: (Progress, QueryResult), below: (seq<Kid>, QueryResult))
    requires req.phase == InProgress
    ensures var next := Filled(req, here, below);
      next.phase == if AllCompleted(next) then Completed else InProgress
  {
  }

  lemma ServePhase(req: Req, limit: nat)
    requires !Stopped(req) && req.phase == if AllCompleted(req) then Completed else InProgress
    ensures var next := Serve(req, limit).0;
      next.phase == if AllCompleted(next) then Completed else InProgress
  {
    var next := Serve(req, limit).0;
    assert next.kids == req.kids && next.local == req.local;
  }

  lemma {:induction false} FetchInOrder(sh: Shards, req: Req, maxRows: nat, env: Env)
    requires WellFormed(sh, req) && AllInOrder(req)
    ensures AllInOrder(Fetch(sh, req, maxRows, env).0)
    decreases req, 1
  {
    PullKidsInOrder(sh, req.kids, AdaptiveChunk(maxRows, env.pressure), env.calls);
    SelfInOrder(sh, req, maxRows, env);
    FetchMoves(sh, req, maxRows, env);
  }

  /** In every run, every request of the tree keeps its window within one large chunk per worker, and is COMPLETED,
      unless stopped, exactly when no worker of its has more. */
  lemma {:induction false} EveryRequestInOrder(sh: Shards, p: Plan, calls: seq<Call>)
    ensures AllInOrder(Run(sh, Start(p), calls).req)
  {
    StartInOrder(p);
    if calls != [] {
      var k := |calls| - 1;
      EveryRequestInOrder(sh, p, calls[..k]);
      StartIsWellFormed(sh, p);
      RunKeeps(sh, Start(p), calls[..k]);
      FetchInOrder(sh, Run(sh, Start(p), calls[..k]).req, calls[k].maxRows, calls[k].env);
    }
  }

  /** COMPLETED alone does not mean done: a live fetch says `done` exactly when the request is then
      COMPLETED and its window is read. */
  lemma DoneIsCompletedAndRead(sh: Shards, p: Plan, calls: seq<Call>, call: Call)
    requires var req := Run(sh, Start(p), calls).req; !Stopped(req) && call.env.interrupt.NoInterrupt?
    ensures var (next, reply) := Fetch(sh, Run(sh, Start(p), calls).req, call.maxRows, call.env);
      reply.done <==> next.phase.Completed? && WindowRead(next)
  {
    var req := Run(sh, Start(p), calls).req;
    EveryRequestInOrder(sh, p, calls);
    StartIsWellFormed(sh, p);
    RunKeeps(sh, Start(p), calls);
    DoneIsExact(sh, req, call.maxRows, call.env);
    PhaseTells(sh, req, call.maxRows, call.env);
    FetchStaysLive(sh, req, call.maxRows, call.env);
  }

  // ----- the books of parents and children

  /** Matching rows that the local scan has passed. */
  function LocalMatched(sh: Shards, node: NodeId, local: Progress): nat {
    if local.nextStartRow <= |sh(node)| then |Matching(sh(node), 0, local.nextStartRow)| else 0
  }

  /** Rows this request has handed out: those it has matched and no longer holds. */
  function GivenOut(req: Req): int {
    req.agg.rowsMatched - Unread(req)
  }

  function GivenOutAll(kids: seq<Kid>): int {
    if kids == [] then 0 else GivenOutAll(kids[..|kids| - 1]) + GivenOut(kids[|kids| - 1].remote)
  }

  ghost predicate AllAccounted(sh: Shards, kids: seq<Kid>, exact: bool)
    decreases kids
  {
    forall i :: 0 <= i < |kids| ==> Accounted(sh, kids[i].remote, exact)
  }

  /** The counters of one request: it counts as scanned the rows its own scan passed and each row a child sent, and its
      `nextStartRow` is that of its own scan; once it has refilled, it says `hasMore` while a worker has more. */
  ghost predicate Counted(sh: Shards, req: Req) {
    && req.agg.rowsScanned == req.local.nextStartRow + req.agg.rowsMatched - LocalMatched(sh, req.node, req.local)
    && req.agg.nextStartRow == req.local.nextStartRow
    && (req.round > 0 && !req.agg.hasMore ==> AllCompleted(req))
  }

  /** At every request of the tree: what it counts as matched is what its own scan found and what its children
      handed out. A lost reply makes a parent count less than that, nothing ever makes it count more. */
  ghost predicate Accounted(sh: Shards, req: Req, exact: bool)
    decreases req
  {
    && GivenOut(req) >= 0 && Counted(sh, req)
    && req.agg.rowsMatched <= LocalMatched(sh, req.node, req.local) + GivenOutAll(req.kids)
    && (exact ==> req.agg.rowsMatched == LocalMatched(sh, req.node, req.local) + GivenOutAll(req.kids))
    && AllAccounted(sh, req.kids, exact)
  }

  lemma {:induction false} StartsGiveNothing(ps: seq<Plan>)
    ensures GivenOutAll(StartAll(ps)) == 0
  {
    if ps != [] {
      var k := |ps| - 1;
      StartsGiveNothing(ps[..k]);
      GivenOutAllAppend(StartAll(ps[..k]), Kid(ps[k].node, FRESH_PROGRESS, Start(ps[k])));
    }
  }

  lemma {:induction false} StartAccounted(sh: Shards, p: Plan, exact: bool)
    ensures Accounted(sh, Start(p), exact)
    decreases p
  {
    var kids := StartAll(p.kids);
    forall i | 0 <= i < |kids| ensures Accounted(sh, kids[i].remote, exact) {
      StartAccounted(sh, p.kids[i], exact);
    }
    StartsGiveNothing(p.kids);
    NothingAccounted(sh, p.node, kids, exact);
  }

  lemma NothingAccounted(sh: Shards, node: NodeId, kids: seq<Kid>, exact: bool)
    requires AllAccounted(sh, kids, exact) && GivenOutAll(kids) == 0
    ensures Accounted(sh, Req(node, InProgress, EMPTY_RESULT, 0, 0, FRESH_PROGRESS, kids), exact)
  {
  }

  lemma PullLocalAccounts(sh: Shards, node: NodeId, local: Progress, maxRows: nat, pressure: real)
    requires local.nextStartRow <= |sh(node)| && (local.completed ==> local.nextStartRow == |sh(node)|)
    ensures var (after, own) := PullLocal(sh, node, local, maxRows, pressure);
      own.rowsMatched == |own.trips| && LocalMatched(sh, node, after) == LocalMatched(sh, node, local) + |own.trips|
  {
    var after := PullLocal(sh, node, local, maxRows, pressure).0;
    PullLocalKeeps(sh, node, local, maxRows, pressure);
    MatchingSplits(sh(node), 0, local.nextStartRow, after.nextStartRow);
    MatchingHasTrips(sh(node), local.nextStartRow, after.nextStartRow);
  }

  lemma {:induction false} PullKidAccounts(sh: Shards, kid: Kid, maxRows: nat, ce: CallEnv, exact: bool)
    requires WellFormed(sh, kid.remote) && Accounted(sh, kid.remote, exact) && (exact ==> ReliableCall(kid, ce))
    ensures var (after, partial) := PullKid(sh, kid, maxRows, ce);
      && Accounted(sh, after.remote, exact) && partial.rowsMatched == |partial.trips|
      && GivenOut(kid.remote) + |partial.trips| <= GivenOut(after.remote)
      && (exact ==> GivenOut(kid.remote) + |partial.trips| == GivenOut(after.remote))
    decreases kid
  {
    if !kid.progress.completed && (kid.progress.submitted || ce.submitAccepted) && !ce.fetch.Undelivered? {
      var want := AdaptiveChunk(maxRows, ce.pressure);
      var env := if ce.fetch.Replied? then ce.fetch.env else ce.fetch.lost;
      FetchKeeps(sh, kid.remote, want, env);
      FetchAccounts(sh, kid.remote, want, env, exact);
      FetchConserves(sh, kid.remote, want, env);
    }
  }

  lemma GivenOutAllAppend(kids: seq<Kid>, kid: Kid)
    ensures GivenOutAll(kids + [kid]) == GivenOutAll(kids) + GivenOut(kid.remote)
  {
    assert (kids + [kid])[..|kids|] == kids;
  }

  lemma {:induction false} PullKidsAccount(sh: Shards, kids: seq<Kid>, maxRows: nat, calls: seq<CallEnv>, exact: bool)
    requires AllWellFormed(sh, kids) && AllAccounted(sh, kids, exact) && (exact ==> ReliableCalls(kids, calls))
    ensures var (after, gathered) := PullKids(sh, kids, maxRows, calls);
      && AllAccounted(sh, after, exact) && gathered.rowsMatched == |gathered.trips|
      && GivenOutAll(kids) + |gathered.trips| <= GivenOutAll(after)
      && (exact ==> GivenOutAll(kids) + |gathered.trips| == GivenOutAll(after))
    decreases kids
  {
    if kids != [] {
      var k := |kids| - 1;
      PullKidsAccount(sh, kids[..k], maxRows, calls, exact);
      PullKidAccounts(sh, kids[k], maxRows, CallAt(calls, k), exact);
      GivenOutAllAppend(PullKids(sh, kids[..k], maxRows, calls).0, PullKid(sh, kids[k], maxRows, CallAt(calls, k)).0);
    }
  }

  lemma {:induction false} FetchAccounts(sh: Shards, req: Req, maxRows: nat, env: Env, exact: bool)
    requires WellFormed(sh, req) && Accounted(sh, req, exact) && (exact ==> Reliable(req, env))
    ensures Accounted(sh, Fetch(sh, req, maxRows, env).0, exact)
    decreases req, 1
  {
    FetchMoves(sh, req, maxRows, env);
    FetchConserves(sh, req, maxRows, env);
    FetchKeepsCounters(sh, req, maxRows, env);
    if env.interrupt.NoInterrupt? && Refills(req) {
      var limit := AdaptiveChunk(maxRows, env.pressure);
      var here := PullLocal(sh, req.node, req.local, limit, env.localPressure);
      var below := PullKids(sh, req.kids, limit, env.calls);
      PullLocalKeeps(sh, req.node, req.local, limit, env.localPressure);
      PullLocalAccounts(sh, req.node, req.local, limit, env.localPressure);
      PullKidsKeeps(sh, req.kids, limit, env.calls);
      PullKidsAccount(sh, req.kids, limit, env.calls, exact);
      FilledWindow(req, here, below);
      ServeOnlyReads(Filled(req, here, below), limit);
    }
  }

  // ----- what a refill counts

  lemma PullLocalCounts(sh: Shards, node: NodeId, local: Progress, maxRows: nat, pressure: real)
    requires local.nextStartRow <= |sh(node)|
    ensures var (after, own) := PullLocal(sh, node, local, maxRows, pressure);
      && own.rowsScanned == after.nextStartRow - local.nextStartRow
      && (own.nextStartRow == after.nextStartRow || (own.nextStartRow == 0 && after == local))
      && (own.hasMore <==> !after.completed)
  {
    ScanIsFilterOfPassedRows(sh(node), local.nextStartRow, AdaptiveChunk(maxRows, pressure), SCAN_ROW_BUDGET);
  }

  lemma {:induction false} PullKidsCount(sh: Shards, kids: seq<Kid>, maxRows: nat, calls: seq<CallEnv>)
    ensures var (after, gathered) := PullKids(sh, kids, maxRows, calls);
      && gathered.rowsScanned == gathered.rowsMatched && gathered.nextStartRow == 0
      && (gathered.hasMore <==> !AllKidsCompleted(after))
    decreases kids
  {
    if kids != [] {
      var k := |kids| - 1;
      PullKidsCount(sh, kids[..k], maxRows, calls);
      PullKidCounts(sh, kids[k], maxRows, CallAt(calls, k));
      var before := PullKids(sh, kids[..k], maxRows, calls).0;
      var after := PullKids(sh, kids, maxRows, calls).0;
      assert after[..k] == before && after[k] == PullKid(sh, kids[k], maxRows, CallAt(calls, k)).0;
      assert AllKidsCompleted(after) ==> forall i :: 0 <= i < k ==> before[i] == after[i];
    }
  }

  lemma PullKidCounts(sh: Shards, kid: Kid, maxRows: nat, ce: CallEnv)
    ensures var (after, partial) := PullKid(sh, kid, maxRows, ce);
      && partial.rowsScanned == partial.rowsMatched && partial.nextStartRow == 0
      && (partial.hasMore <==> !after.progress.completed)
  {
  }

  /** What a refill adds to the counters; what says `hasMore` once says it for good. */
  lemma FilledCounts(req: Req, here: (Progress, QueryResult), below: (seq<Kid>, QueryResult))
    requires WindowRead(req) && below.1.nextStartRow == 0
    requires here.1.hasMore <==> !here.0.completed
    requires below.1.hasMore <==> !AllKidsCompleted(below.0)
    ensures var next := Filled(req, here, below);
      && next.agg.rowsScanned - req.agg.rowsScanned == here.1.rowsScanned + below.1.rowsScanned
      && next.agg.nextStartRow ==
        (if here.1.nextStartRow > req.agg.nextStartRow then here.1.nextStartRow else req.agg.nextStartRow)
      && (next.agg.hasMore <==> req.agg.hasMore || !AllCompleted(next))
  {
  }

  lemma FetchKeepsCounters(sh: Shards, req: Req, maxRows: nat, env: Env)
    requires WellFormed(sh, req) && Counted(sh, req)
    ensures var next := Fetch(sh, req, maxRows, env).0;
      Counted(sh, next) && (req.agg.hasMore ==> next.agg.hasMore)
  {
    FetchMoves(sh, req, maxRows, env);
    if env.interrupt.NoInterrupt? && Refills(req) {
      var limit := AdaptiveChunk(maxRows, env.pressure);
      var here := PullLocal(sh, req.node, req.local, limit, env.localPressure);
      var below := PullKids(sh, req.kids, limit, env.calls);
      PullLocalKeeps(sh, req.node, req.local, limit, env.localPressure);
      PullLocalAccounts(sh, req.node, req.local, limit, env.localPressure);
      PullLocalCounts(sh, req.node, req.local, limit, env.localPressure);
      PullKidsKeeps(sh, req.kids, limit, env.calls);
      PullKidsCount(sh, req.kids, limit, env.calls);
      FilledWindow(req, here, below);
      FilledCounts(req, here, below);
      ServeOnlyReads(Filled(req, here, below), limit);
    }
  }

  /** Conservation between all requests of the tree, in every run: each request has matched at most what its own
      scan found and its children handed out, and exactly that when nothing fails; so no row is invented on any hop.
      Its other counters agree with that. */
  lemma {:induction false} BooksBalance(sh: Shards, p: Plan, calls: seq<Call>, exact: bool)
    requires exact ==> ReliableRun(sh, Start(p), calls)
    ensures Accounted(sh, Run(sh, Start(p), calls).req, exact)
  {
    StartAccounted(sh, p, exact);
    if calls != [] {
      var k := |calls| - 1;
      BooksBalance(sh, p, calls[..k], exact);
      StartIsWellFormed(sh, p);
      RunKeeps(sh, Start(p), calls[..k]);
      FetchAccounts(sh, Run(sh, Start(p), calls[..k]).req, calls[k].maxRows, calls[k].env, exact);
    }
  }
}
