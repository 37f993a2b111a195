/** How much a fetch brings and hands out: as much as its size and the rows that are there allow, so
    a small reply means that little was left. */
module ProtocolSizes {
  import opened Results
  import opened LocalScan
  import opened ChunkSizing
  import opened Forwarding
  import opened Protocol
  import opened ProtocolInvariants

  // ----- what the workers bring

  /** The local shard gives as many matching rows as the size of the chunk allows, of those among its next 50000
      rows; if it gives fewer, it has passed all of these rows. */
  lemma LocalTakes(sh: Shards, node: NodeId, local: Progress, maxRows: nat, pressure: real)
    requires !local.completed && local.nextStartRow <= |sh(node)|
    ensures var (after, own) := PullLocal(sh, node, local, maxRows, pressure);
      var size := AdaptiveChunk(maxRows, pressure);
      var end := Min(|sh(node)|, local.nextStartRow + 50000);
      && |own.trips| == Min(size, |Matching(sh(node), local.nextStartRow, end)|)
      && (|own.trips| < size ==> after.nextStartRow == end)
  {
    var size := AdaptiveChunk(maxRows, pressure);
    ScanTakes(sh(node), local.nextStartRow, size, SCAN_ROW_BUDGET);
    ScanIsFilterOfPassedRows(sh(node), local.nextStartRow, size, SCAN_ROW_BUDGET);
  }

  /** A child that answers gives as many rows as its size allows of those it then has unread; if it gives fewer, its
      window is read to the end. */
  lemma ChildTakes(sh: Shards, kid: Kid, maxRows: nat, ce: CallEnv)
    requires WellFormed(sh, kid.remote) && !kid.progress.completed && (kid.progress.submitted || ce.submitAccepted)
    requires ce.fetch.Replied? && ce.fetch.env.interrupt.NoInterrupt? && !Stopped(kid.remote)
    ensures var (after, part) := PullKid(sh, kid, maxRows, ce);
      var size := AdaptiveChunk(AdaptiveChunk(maxRows, ce.pressure), ce.fetch.env.pressure);
      && |part.trips| <= size && (|part.trips| < size ==> Unread(after.remote) == 0)
      && part.trips == Fetch(sh, kid.remote, AdaptiveChunk(maxRows, ce.pressure), ce.fetch.env).1.trips
  {
    var want := AdaptiveChunk(maxRows, ce.pressure);
    FetchHandsOut(sh, kid.remote, want, ce.fetch.env);
  }

  /** A child that is completed or whose call fails gives nothing, and is not asked again. */
  lemma SilentChild(sh: Shards, kid: Kid, maxRows: nat, ce: CallEnv)
    requires kid.progress.completed || (!kid.progress.submitted && !ce.submitAccepted) || !ce.fetch.Replied?
    ensures var (after, part) := PullKid(sh, kid, maxRows, ce);
      part == EMPTY_RESULT && after.progress.completed
  {
  }

  lemma LastChild(sh: Shards, kids: seq<Kid>, maxRows: nat, calls: seq<CallEnv>)
    requires kids != []
    ensures var k := |kids| - 1;
      var (before, partial) := PullKids(sh, kids[..k], maxRows, calls);
      var (kid, part) := PullKid(sh, kids[k], maxRows, CallAt(calls, k));
      var (after, gathered) := PullKids(sh, kids, maxRows, calls);
      after == before + [kid] && gathered.trips == partial.trips + part.trips
  {
  }

  /** In a round every child has its own call. */
  lemma {:induction false} EveryChildHasItsTurn(sh: Shards, kids: seq<Kid>, maxRows: nat, calls: seq<CallEnv>, i: nat)
    requires i < |kids|
    ensures PullKids(sh, kids, maxRows, calls).0[i] == PullKid(sh, kids[i], maxRows, CallAt(calls, i)).0
    decreases |kids|
  {
    LastChild(sh, kids, maxRows, calls);
    if i < |kids| - 1 {
      EveryChildHasItsTurn(sh, kids[..|kids| - 1], maxRows, calls, i);
    }
  }

  /** The rows of a child stand in the gathered rows behind those of the children before it. */
  lemma {:induction false} RowsOfChild(sh: Shards, kids: seq<Kid>, maxRows: nat, calls: seq<CallEnv>, i: nat)
    returns (front: seq<TaxiTrip>, rear: seq<TaxiTrip>)
    requires i < |kids|
    ensures PullKids(sh, kids, maxRows, calls).1.trips
         == front + PullKid(sh, kids[i], maxRows, CallAt(calls, i)).1.trips + rear
    ensures |front| == PartsSum(sh, kids[..i], maxRows, calls)
    decreases |kids|
  {
    var k := |kids| - 1;
    var part := PullKid(sh, kids[i], maxRows, CallAt(calls, i)).1.trips;
    LastChild(sh, kids, maxRows, calls);
    if i < k {
      front, rear := RowsOfChild(sh, kids[..k], maxRows, calls, i);
      assert kids[..k][..i] == kids[..i];
      var last := PullKid(sh, kids[k], maxRows, CallAt(calls, k)).1.trips;
      Regroup(front + part, rear, last);
      rear := rear + last;
    } else {
      GatheredIsSum(sh, kids[..k], maxRows, calls);
      front, rear := PullKids(sh, kids[..k], maxRows, calls).1.trips, [];
      assert front + part + [] == front + part;
    }
  }

  // ----- what a fetch hands out

  lemma ServeTakes(req: Req, limit: nat)
    requires req.cursor <= |req.agg.trips|
    ensures var (next, reply) := Serve(req, limit);
      |reply.trips| == Min(limit, Unread(req)) && Unread(next) == Unread(req) - |reply.trips|
  {
  }

  lemma {:induction false} GatheredIsSum(sh: Shards, kids: seq<Kid>, maxRows: nat, calls: seq<CallEnv>)
    ensures |PullKids(sh, kids, maxRows, calls).1.trips| == PartsSum(sh, kids, maxRows, calls)
    decreases |kids|
  {
    if kids != [] {
      GatheredIsSum(sh, kids[..|kids| - 1], maxRows, calls);
    }
  }

  lemma RefillBrings(sh: Shards, req: Req, size: nat, env: Env)
    requires WellFormed(sh, req) && Refills(req) && size > 0
    ensures var next := Pull(sh, req, size, env);
      next.cursor == 0 && Unread(next) == |next.agg.trips| == RowsBrought(sh, req, size, env)
  {
    PullLocalKeeps(sh, req.node, req.local, size, env.localPressure);
    PullKidsKeeps(sh, req.kids, size, env.calls);
    FilledWindow(req, PullLocal(sh, req.node, req.local, size, env.localPressure),
        PullKids(sh, req.kids, size, env.calls));
    GatheredIsSum(sh, req.kids, size, env.calls);
  }

  /** A live fetch hands out as many rows as its size allows of those that are unread once it has refilled: what
      was unread before, or, if that was nothing, what its workers bring. */
  lemma FetchHandsOut(sh: Shards, req: Req, maxRows: nat, env: Env)
    requires WellFormed(sh, req) && !Stopped(req) && env.interrupt.NoInterrupt?
    ensures var (next, reply) := Fetch(sh, req, maxRows, env);
      var size := AdaptiveChunk(maxRows, env.pressure);
      var there := if Refills(req) then RowsBrought(sh, req, size, env) else Unread(req);
      |reply.trips| == Min(size, there) && Unread(next) == there - |reply.trips|
  {
    var size := AdaptiveChunk(maxRows, env.pressure);
    if Refills(req) {
      RefillBrings(sh, req, size, env);
      ServeTakes(Pull(sh, req, size, env), size);
    } else {
      ServeTakes(req, size);
    }
  }

  /** Rows that one round brings: those of the local shard and of every child. */
  function RowsBrought(sh: Shards, req: Req, maxRows: nat, env: Env): nat {
    |PullLocal(sh, req.node, req.local, maxRows, env.localPressure).1.trips|
    + PartsSum(sh, req.kids, maxRows, env.calls)
  }

  function PartsSum(sh: Shards, kids: seq<Kid>, maxRows: nat, calls: seq<CallEnv>): nat {
    if kids == [] then 0
    else
      var k := |kids| - 1;
      PartsSum(sh, kids[..k], maxRows, calls) + |PullKid(sh, kids[k], maxRows, CallAt(calls, k)).1.trips|
  }

  /** A node without children that has fewer matching rows than the sizes of a fetch, among at most 50000 rows,
      hands out all of them at once and is done. */
  lemma OneFetchSuffices(sh: Shards, node: NodeId, maxRows: nat, env: Env)
    requires env.interrupt.NoInterrupt? && |sh(node)| <= 50000
    requires |AllTrips(sh(node))| < AdaptiveChunk(AdaptiveChunk(maxRows, env.pressure), env.localPressure)
    ensures Fetch(sh, Start(Plan(node, [])), maxRows, env).1
         == Reply(AllTrips(sh(node)), Repeat(node, |AllTrips(sh(node))|), true)
  {
    var req, size := Start(Plan(node, [])), AdaptiveChunk(maxRows, env.pressure);
    var here := PullLocal(sh, node, FRESH_PROGRESS, size, env.localPressure);
    LocalTakes(sh, node, FRESH_PROGRESS, size, env.localPressure);
    PullLocalKeeps(sh, node, FRESH_PROGRESS, size, env.localPressure);
    MatchingHasTrips(sh(node), 0, |sh(node)|);
    ScanIsFilterOfPassedRows(sh(node), 0, AdaptiveChunk(size, env.localPressure), SCAN_ROW_BUDGET);
    assert here.0.completed && here.1.trips == AllTrips(sh(node));
    OwnWindow(req, here);
    assert req.kids == [];
    FetchRefills(sh, req, maxRows, env);
    WholeWindowServed(Filled(req, here, ([], EMPTY_RESULT)), size);
  }

  lemma OwnWindow(req: Req, here: (Progress, QueryResult))
    requires req.kids == [] && req.round == 0 && req.agg == EMPTY_RESULT && req.cursor == 0
    ensures var next := Filled(req, here, ([], EMPTY_RESULT));
      && next.agg.trips == here.1.trips && next.agg.sources == here.1.sources && next.cursor == 0
      && next.kids == [] && next.local == here.0
  {
  }

  lemma WholeWindowServed(req: Req, limit: nat)
    requires req.cursor == 0 && |req.agg.trips| == |req.agg.sources| <= limit && AllCompleted(req)
    ensures Serve(req, limit).1 == Reply(req.agg.trips, req.agg.sources, true)
  {
    assert req.agg.trips[0..|req.agg.trips|] == req.agg.trips;
    assert req.agg.sources[0..|req.agg.sources|] == req.agg.sources;
  }
}
