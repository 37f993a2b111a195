/** What every fetch keeps: a consistent window, truthful labels, bounded
    windows and replies, conservation of matched rows, and a stable end. */
module ProtocolInvariants {
  import opened Results
  import opened LocalScan
  import opened ChunkSizing
  import opened Forwarding
  import opened Protocol

  /** How many requests of the tree are at node `s`. */
  function Asked(req: Req, s: NodeId): nat {
    (if req.node == s then 1 else 0) + AskedAll(req.kids, s)
  }

  function AskedAll(kids: seq<Kid>, s: NodeId): nat {
    if kids == [] then 0 else AskedAll(kids[..|kids| - 1], s) + Asked(kids[|kids| - 1].remote, s)
  }

  /** The parallel lists and the emitted counter agree. */
  ghost predicate Tidy(q: QueryResult) {
    |q.trips| == |q.sources| == q.rowsEmitted
  }

  ghost predicate WellFormed(sh: Shards, req: Req) {
    && Tidy(req.agg)
    && req.cursor <= |req.agg.trips|
    && (forall x :: x in req.agg.sources ==> Asked(req, x) > 0)
    && req.local.nextStartRow <= |sh(req.node)|
    && (req.local.completed ==> req.local.nextStartRow == |sh(req.node)|)
    && (forall i :: 0 <= i < |req.kids| ==> WellFormed(sh, req.kids[i].remote))
  }

  /** A partial result that only carries labels of the given requests and counts what it carries. */
  ghost predicate PartialOf(q: QueryResult, kids: seq<Kid>) {
    && Tidy(q) && q.rowsMatched == |q.trips|
    && forall x :: x in q.sources ==> AskedAll(kids, x) > 0
  }

  ghost predicate SameAsked(a: Req, b: Req) {
    a.node == b.node && forall s :: Asked(a, s) == Asked(b, s)
  }

  lemma {:induction false} StartIsWellFormed(sh: Shards, p: Plan)
    ensures WellFormed(sh, Start(p))
    decreases p
  {
    forall i | 0 <= i < |p.kids| ensures WellFormed(sh, Start(p).kids[i].remote) {
      StartIsWellFormed(sh, p.kids[i]);
    }
  }

  lemma {:induction false} StartAsks(p: Plan, s: NodeId)
    ensures Asked(Start(p), s) == Occ(p, s)
    decreases p, 0
  {
    StartAllAsks(p.kids, s);
  }

  lemma {:induction false} StartAllAsks(ps: seq<Plan>, s: NodeId)
    ensures AskedAll(StartAll(ps), s) == OccAll(ps, s)
    decreases ps, 1
  {
    if ps != [] {
      var k := |ps| - 1;
      StartAllAsks(ps[..k], s);
      StartAsks(ps[k], s);
      assert StartAll(ps)[..k] == StartAll(ps[..k]);
    }
  }

  // ----- one fetch keeps the invariant

  lemma PullLocalKeeps(sh: Shards, node: NodeId, local: Progress, maxRows: nat, pressure: real)
    requires local.nextStartRow <= |sh(node)|
    requires local.completed ==> local.nextStartRow == |sh(node)|
    ensures var (after, own) := PullLocal(sh, node, local, maxRows, pressure);
      && after.nextStartRow <= |sh(node)|
      && (after.completed ==> after.nextStartRow == |sh(node)|)
      && Tidy(own) && own.rowsMatched == |own.trips|
      && (maxRows > 0 ==> |own.trips| <= maxRows)
      && local.nextStartRow <= after.nextStartRow
      && own.trips == TripsIn(sh(node), local.nextStartRow, after.nextStartRow)
      && own.sources == Repeat(node, |own.trips|)
      && (!local.completed && !after.completed ==> after.nextStartRow > local.nextStartRow)
      && |own.trips| <= after.nextStartRow - local.nextStartRow
  {
    if !local.completed {
      var limit := AdaptiveChunk(maxRows, pressure);
      var c := ScanFrom(sh(node), local.nextStartRow, limit, SCAN_ROW_BUDGET);
      ScanIsFilterOfPassedRows(sh(node), local.nextStartRow, limit, SCAN_ROW_BUDGET);
      MatchingWithin(sh(node), local.nextStartRow, c.nextStartRow);
      if c.hasMore {
        HasMoreAdvances(sh(node), local.nextStartRow, limit, SCAN_ROW_BUDGET);
      }
    }
  }

  lemma {:induction false} PullKidKeeps(sh: Shards, kid: Kid, maxRows: nat, ce: CallEnv)
    requires WellFormed(sh, kid.remote)
    ensures WellFormed(sh, PullKid(sh, kid, maxRows, ce).0.remote)
    ensures SameAsked(kid.remote, PullKid(sh, kid, maxRows, ce).0.remote)
    ensures PartialOf(PullKid(sh, kid, maxRows, ce).1, [kid])
    ensures maxRows > 0 ==> |PullKid(sh, kid, maxRows, ce).1.trips| <= maxRows
    decreases kid
  {
    var want := AdaptiveChunk(maxRows, ce.pressure);
    assert forall x :: AskedAll([kid], x) == Asked(kid.remote, x) by {
      assert [kid][..0] == [];
    }
    match ce.fetch
    case Undelivered =>
    case ReplyLost(env) => FetchKeeps(sh, kid.remote, want, env);
    case Replied(env) => FetchKeeps(sh, kid.remote, want, env);
  }

  lemma AskedAllAppend(kids: seq<Kid>, kid: Kid, s: NodeId)
    ensures AskedAll(kids + [kid], s) == AskedAll(kids, s) + Asked(kid.remote, s)
  {
    assert (kids + [kid])[..|kids|] == kids;
  }

  ghost predicate SameAskedAll(a: seq<Kid>, b: seq<Kid>) {
    forall s :: AskedAll(a, s) == AskedAll(b, s)
  }

  ghost predicate AllWellFormed(sh: Shards, kids: seq<Kid>) {
    forall i :: 0 <= i < |kids| ==> WellFormed(sh, kids[i].remote)
  }

  lemma SameAskedAppend(before: seq<Kid>, last: Kid, kids: seq<Kid>)
    requires kids != [] && SameAskedAll(before, kids[..|kids| - 1]) && SameAsked(kids[|kids| - 1].remote, last.remote)
    ensures SameAskedAll(before + [last], kids)
  {
    forall s ensures AskedAll(before + [last], s) == AskedAll(kids, s) {
      AskedAllAppend(before, last, s);
    }
  }

  lemma {:induction false} PullKidsKeeps(sh: Shards, kids: seq<Kid>, maxRows: nat, calls: seq<CallEnv>)
    requires AllWellFormed(sh, kids)
    ensures AllWellFormed(sh, PullKids(sh, kids, maxRows, calls).0)
    ensures SameAskedAll(PullKids(sh, kids, maxRows, calls).0, kids)
    ensures PartialOf(PullKids(sh, kids, maxRows, calls).1, kids)
    ensures maxRows > 0 ==> |PullKids(sh, kids, maxRows, calls).1.trips| <= |kids| * maxRows
    decreases kids
  {
    if kids != [] {
      var k := |kids| - 1;
      PullKidsKeeps(sh, kids[..k], maxRows, calls);
      PullKidKeeps(sh, kids[k], maxRows, CallAt(calls, k));
      PullKidsStep(sh, kids, maxRows, calls);
    }
  }

  /** Adding the last child's chunk to those of the children before it. */
  lemma PullKidsStep(sh: Shards, kids: seq<Kid>, maxRows: nat, calls: seq<CallEnv>)
    requires kids != []
    requires var k := |kids| - 1;
      var (before, partial) := PullKids(sh, kids[..k], maxRows, calls);
      var (last, lastResult) := PullKid(sh, kids[k], maxRows, CallAt(calls, k));
      && AllWellFormed(sh, before) && WellFormed(sh, last.remote)
      && SameAskedAll(before, kids[..k]) && SameAsked(kids[k].remote, last.remote)
      && PartialOf(partial, kids[..k]) && PartialOf(lastResult, [kids[k]])
      && (maxRows > 0 ==> |partial.trips| <= k * maxRows && |lastResult.trips| <= maxRows)
    ensures AllWellFormed(sh, PullKids(sh, kids, maxRows, calls).0)
    ensures SameAskedAll(PullKids(sh, kids, maxRows, calls).0, kids)
    ensures PartialOf(PullKids(sh, kids, maxRows, calls).1, kids)
    ensures maxRows > 0 ==> |PullKids(sh, kids, maxRows, calls).1.trips| <= |kids| * maxRows
  {
    var k := |kids| - 1;
    var (before, partial) := PullKids(sh, kids[..k], maxRows, calls);
    var (last, lastResult) := PullKid(sh, kids[k], maxRows, CallAt(calls, k));
    SameAskedAppend(before, last, kids);
    PartialMerges(partial, lastResult, kids);
    assert (k + 1) * maxRows == k * maxRows + maxRows;
  }

  lemma PartialMerges(partial: QueryResult, lastResult: QueryResult, kids: seq<Kid>)
    requires kids != []
    requires PartialOf(partial, kids[..|kids| - 1]) && PartialOf(lastResult, [kids[|kids| - 1]])
    ensures PartialOf(partial.Merge(lastResult), kids)
  {
    var last := kids[|kids| - 1];
    forall x | x in partial.Merge(lastResult).sources ensures AskedAll(kids, x) > 0 {
      AskedAllAppend([], last, x);
      assert [] + [last] == [last];
    }
  }

  /** A read window is replaced by the two chunks. */
  lemma FilledWindow(req: Req, here: (Progress, QueryResult), below: (seq<Kid>, QueryResult))
    requires WindowRead(req) && Tidy(here.1) && Tidy(below.1)
    ensures var next := Filled(req, here, below);
      && Tidy(next.agg) && next.cursor == 0
      && |next.agg.trips| == |here.1.trips| + |below.1.trips|
      && next.agg.rowsMatched == req.agg.rowsMatched + here.1.rowsMatched + below.1.rowsMatched
      && forall x :: x in next.agg.sources ==> x in here.1.sources || x in below.1.sources
  {
    var (first, second) := if req.round % 2 == 1 then (below.1, here.1) else (here.1, below.1);
    assert Filled(req, here, below).agg == req.agg.Cleared().Merge(first).Merge(second);
    assert req.agg.Cleared().Merge(first).trips == first.trips
        && req.agg.Cleared().Merge(first).sources == first.sources;
  }

  /** What a refill leaves of the record beside the window. */
  lemma FilledRecord(req: Req, here: (Progress, QueryResult), below: (seq<Kid>, QueryResult))
    ensures var next := Filled(req, here, below);
      next.node == req.node && next.local == here.0 && next.kids == below.0
  {
  }

  lemma {:induction false} PullKeeps(sh: Shards, req: Req, maxRows: nat, env: Env)
    requires WellFormed(sh, req) && WindowRead(req) && maxRows > 0
    ensures WellFormed(sh, Pull(sh, req, maxRows, env))
    ensures SameAsked(req, Pull(sh, req, maxRows, env))
    ensures var next := Pull(sh, req, maxRows, env);
      && next.cursor == 0
      && next.agg.rowsMatched == req.agg.rowsMatched + |next.agg.trips|
      && |next.agg.trips| <= (1 + |req.kids|) * maxRows
    decreases req, 0
  {
    var here := PullLocal(sh, req.node, req.local, maxRows, env.localPressure);
    var below := PullKids(sh, req.kids, maxRows, env.calls);
    PullLocalKeeps(sh, req.node, req.local, maxRows, env.localPressure);
    PullKidsKeeps(sh, req.kids, maxRows, env.calls);
    FilledKeeps(sh, req, maxRows, here, below);
  }

  lemma FilledKeeps(sh: Shards, req: Req, maxRows: nat, here: (Progress, QueryResult), below: (seq<Kid>, QueryResult))
    requires WindowRead(req) && Tidy(here.1) && here.1.rowsMatched == |here.1.trips| <= maxRows
    requires here.1.sources == Repeat(req.node, |here.1.trips|)
    requires here.0.nextStartRow <= |sh(req.node)| && (here.0.completed ==> here.0.nextStartRow == |sh(req.node)|)
    requires AllWellFormed(sh, below.0) && SameAskedAll(below.0, req.kids) && PartialOf(below.1, req.kids)
    requires |below.1.trips| <= |req.kids| * maxRows
    ensures var next := Filled(req, here, below);
      && WellFormed(sh, next) && SameAsked(req, next)
      && next.cursor == 0
      && next.agg.rowsMatched == req.agg.rowsMatched + |next.agg.trips|
      && |next.agg.trips| <= (1 + |req.kids|) * maxRows
  {
    var next := Filled(req, here, below);
    FilledWindow(req, here, below);
    FilledRecord(req, here, below);
    assert forall s :: Asked(next, s) == Asked(req, s);
    assert (1 + |req.kids|) * maxRows == maxRows + |req.kids| * maxRows;
  }

  /** Serving moves the cursor over exactly the rows it hands out. */
  lemma ServeKeeps(sh: Shards, req: Req, limit: nat)
    requires WellFormed(sh, req)
    ensures var (next, reply) := Serve(req, limit);
      && WellFormed(sh, next) && SameAsked(req, next)
      && next.cursor == req.cursor + |reply.trips| && next.agg == req.agg
      && |reply.trips| == |reply.sources| <= limit
      && reply.trips == req.agg.trips[req.cursor..next.cursor]
      && reply.sources == req.agg.sources[req.cursor..next.cursor]
      && (limit > 0 && !WindowRead(req) ==> |reply.trips| > 0)
      && (reply.done <==> WindowRead(next) && AllCompleted(next))
      && next.local == req.local && next.kids == req.kids
      && (forall x :: x in reply.sources ==> Asked(req, x) > 0)
  {
    var (next, reply) := Serve(req, limit);
    assert next.kids == req.kids && next.node == req.node;
  }

  /** What a fetch makes of the children: nothing, or one pull of all of them. */
  lemma FetchMoves(sh: Shards, req: Req, maxRows: nat, env: Env)
    ensures var next := Fetch(sh, req, maxRows, env).0;
      var limit := AdaptiveChunk(maxRows, env.pressure);
      if env.interrupt.NoInterrupt? && Refills(req) then
        && next.kids == PullKids(sh, req.kids, limit, env.calls).0
        && next.local == PullLocal(sh, req.node, req.local, limit, env.localPressure).0
        && next.node == req.node
      else next.kids == req.kids && next.local == req.local && next.agg == req.agg && next.node == req.node
  {
    if env.interrupt.NoInterrupt? && !Stopped(req) {
      var limit := AdaptiveChunk(maxRows, env.pressure);
      if Refills(req) {
        FilledRecord(req, PullLocal(sh, req.node, req.local, limit, env.localPressure),
            PullKids(sh, req.kids, limit, env.calls));
        ServeOnlyReads(Pull(sh, req, limit, env), limit);
      } else {
        ServeOnlyReads(req, limit);
      }
    }
  }

  lemma FetchRefills(sh: Shards, req: Req, maxRows: nat, env: Env)
    requires env.interrupt.NoInterrupt? && Refills(req)
    ensures var limit := AdaptiveChunk(maxRows, env.pressure);
      var here, pulled := PullLocal(sh, req.node, req.local, limit, env.localPressure),
          PullKids(sh, req.kids, limit, env.calls);
      Fetch(sh, req, maxRows, env) == Serve(Filled(req, here, pulled), limit)
  {
  }

  lemma ServeOnlyReads(req: Req, limit: nat)
    ensures var next := Serve(req, limit).0;
      next.node == req.node && next.kids == req.kids && next.local == req.local && next.agg == req.agg
  {
  }

  lemma {:induction false} FetchKeeps(sh: Shards, req: Req, maxRows: nat, env: Env)
    requires WellFormed(sh, req)
    ensures var (next, reply) := Fetch(sh, req, maxRows, env);
      && WellFormed(sh, next) && SameAsked(req, next)
      && |reply.trips| == |reply.sources| <= AdaptiveChunk(maxRows, env.pressure)
      && (forall x :: x in reply.sources ==> Asked(req, x) > 0)
    decreases req, 1
  {
    if env.interrupt.NoInterrupt? && !Stopped(req) {
      var limit := AdaptiveChunk(maxRows, env.pressure);
      if WindowRead(req) && !AllCompleted(req) {
        PullKeeps(sh, req, limit, env);
        ServeKeeps(sh, Pull(sh, req, limit, env), limit);
      } else {
        ServeKeeps(sh, req, limit);
      }
    }
  }

  lemma {:induction false} RunKeeps(sh: Shards, req: Req, calls: seq<Call>)
    requires WellFormed(sh, req)
    ensures WellFormed(sh, Run(sh, req, calls).req) && SameAsked(req, Run(sh, req, calls).req)
  {
    if calls != [] {
      var k := |calls| - 1;
      RunKeeps(sh, req, calls[..k]);
      FetchKeeps(sh, Run(sh, req, calls[..k]).req, calls[k].maxRows, calls[k].env);
    }
  }

  /** One more call, one more reply. */
  lemma RunGrows(sh: Shards, start: Req, calls: seq<Call>, run: Outcome, call: Call)
    requires run == Run(sh, start, calls)
    ensures var (next, reply) := Fetch(sh, run.req, call.maxRows, call.env);
      Run(sh, start, calls + [call]) == Outcome(next, run.replies + [reply])
  {
    assert (calls + [call])[..|calls|] == calls;
  }

  // ----- conservation, bounds and the end of a request

  function Unread(req: Req): nat {
    if req.cursor <= |req.agg.trips| then |req.agg.trips| - req.cursor else 0
  }

  /** Every matched row is either handed out by this fetch or still unread
      in the window, also when the window is dropped and refilled. */
  lemma FetchConserves(sh: Shards, req: Req, maxRows: nat, env: Env)
    requires WellFormed(sh, req)
    ensures var (next, reply) := Fetch(sh, req, maxRows, env);
      next.agg.rowsMatched - Unread(next) == req.agg.rowsMatched - Unread(req) + |reply.trips|
  {
    if env.interrupt.NoInterrupt? && !Stopped(req) {
      var limit := AdaptiveChunk(maxRows, env.pressure);
      if WindowRead(req) && !AllCompleted(req) {
        PullKeeps(sh, req, limit, env);
        ServeKeeps(sh, Pull(sh, req, limit, env), limit);
      } else {
        ServeKeeps(sh, req, limit);
      }
    }
  }

  lemma ZipAppend(t1: seq<TaxiTrip>, s1: seq<NodeId>, t2: seq<TaxiTrip>, s2: seq<NodeId>)
    requires |t1| == |s1|
    ensures Zip(t1 + t2, s1 + s2) == Zip(t1, s1) + Zip(t2, s2)
  {
  }

  lemma DeliveredAppend(replies: seq<Reply>, reply: Reply)
    ensures Delivered(replies + [reply]) == Delivered(replies) + Zip(reply.trips, reply.sources)
  {
    assert (replies + [reply])[..|replies|] == replies;
  }

  /** In every reachable state of a client request the matched counter is
      what the client has received plus what waits unread in the window. */
  lemma {:induction false} WindowConservation(sh: Shards, p: Plan, calls: seq<Call>)
    ensures var r := Run(sh, Start(p), calls);
      && Tidy(r.req.agg) && r.req.cursor <= |r.req.agg.trips|
      && r.req.agg.rowsMatched == |Delivered(r.replies)| + Unread(r.req)
  {
    StartIsWellFormed(sh, p);
    RunKeeps(sh, Start(p), calls);
    if calls != [] {
      var k := |calls| - 1;
      var before := Run(sh, Start(p), calls[..k]);
      WindowConservation(sh, p, calls[..k]);
      RunKeeps(sh, Start(p), calls[..k]);
      FetchKeeps(sh, before.req, calls[k].maxRows, calls[k].env);
      FetchConserves(sh, before.req, calls[k].maxRows, calls[k].env);
      DeliveredAppend(before.replies, Fetch(sh, before.req, calls[k].maxRows, calls[k].env).1);
    }
  }

  /** A reply holds at most min(max_rows, 5000) rows, and a fetch leaves a window of at
      most one adaptive chunk per worker unless it left the old window alone. */
  lemma FetchIsBounded(sh: Shards, req: Req, maxRows: nat, env: Env)
    requires WellFormed(sh, req)
    ensures var (next, reply) := Fetch(sh, req, maxRows, env);
      && |reply.trips| <= LARGE_CHUNK_SIZE
      && (maxRows > 0 ==> |reply.trips| <= maxRows)
      && (next.agg.trips == req.agg.trips
          || |next.agg.trips| <= (1 + |req.kids|) * AdaptiveChunk(maxRows, env.pressure))
      && |next.kids| == |req.kids|
  {
    FetchKeeps(sh, req, maxRows, env);
    if env.interrupt.NoInterrupt? && !Stopped(req) {
      var limit := AdaptiveChunk(maxRows, env.pressure);
      if WindowRead(req) && !AllCompleted(req) {
        PullKeeps(sh, req, limit, env);
        ServeKeeps(sh, Pull(sh, req, limit, env), limit);
      } else {
        ServeKeeps(sh, req, limit);
      }
    }
  }

  /** The cached window of a request never exceeds one large chunk per worker. */
  lemma {:induction false} WindowIsBounded(sh: Shards, p: Plan, calls: seq<Call>)
    ensures |Run(sh, Start(p), calls).req.agg.trips| <= (1 + |p.kids|) * LARGE_CHUNK_SIZE
    ensures |Run(sh, Start(p), calls).req.kids| == |p.kids|
  {
    if calls != [] {
      var k := |calls| - 1;
      var before := Run(sh, Start(p), calls[..k]).req;
      WindowIsBounded(sh, p, calls[..k]);
      StartIsWellFormed(sh, p);
      RunKeeps(sh, Start(p), calls[..k]);
      FetchIsBounded(sh, before, calls[k].maxRows, calls[k].env);
      ChunksWithinLarge(1 + |p.kids|, AdaptiveChunk(calls[k].maxRows, calls[k].env.pressure));
    }
  }

  lemma ChunksWithinLarge(workers: nat, limit: nat)
    requires limit <= LARGE_CHUNK_SIZE
    ensures workers * limit <= workers * LARGE_CHUNK_SIZE
  {
    TimesIsMonotone(limit, LARGE_CHUNK_SIZE, workers);
  }

  /** A live request says `done` exactly when, after the fetch, every worker
      is exhausted and the window is read. */
  lemma DoneIsExact(sh: Shards, req: Req, maxRows: nat, env: Env)
    requires WellFormed(sh, req) && !Stopped(req) && env.interrupt.NoInterrupt?
    ensures var (next, reply) := Fetch(sh, req, maxRows, env);
      reply.done <==> AllCompleted(next) && WindowRead(next)
  {
    var limit := AdaptiveChunk(maxRows, env.pressure);
    if WindowRead(req) && !AllCompleted(req) {
      PullKeeps(sh, req, limit, env);
      ServeKeeps(sh, Pull(sh, req, limit, env), limit);
    } else {
      ServeKeeps(sh, req, limit);
    }
  }

  /** Nothing more can come from this request. */
  ghost predicate Over(req: Req) {
    Stopped(req) || (AllCompleted(req) && WindowRead(req))
  }

  lemma DoneMeansOver(sh: Shards, req: Req, maxRows: nat, env: Env)
    requires WellFormed(sh, req)
    ensures var (next, reply) := Fetch(sh, req, maxRows, env);
      && (reply.done <==> Over(next))
      && (Over(req) ==> reply.done && reply.trips == [] && Over(next) && next == req.(phase := next.phase))
  {
    if env.interrupt.NoInterrupt? && !Stopped(req) {
      DoneIsExact(sh, req, maxRows, env);
      FetchStaysLive(sh, req, maxRows, env);
    }
  }

  lemma FetchStaysLive(sh: Shards, req: Req, maxRows: nat, env: Env)
    requires env.interrupt.NoInterrupt? && !Stopped(req)
    ensures !Stopped(Fetch(sh, req, maxRows, env).0)
  {
  }

  /** After a reply with `done`, and after a cancel or timeout, every later fetch of every run is empty and done. */
  lemma {:induction false} DoneIsStable(sh: Shards, req: Req, calls: seq<Call>)
    requires WellFormed(sh, req) && Over(req)
    ensures Over(Run(sh, req, calls).req)
    ensures forall i :: 0 <= i < |calls| ==>
      Run(sh, req, calls).replies[i].done && Run(sh, req, calls).replies[i].trips == []
  {
    if calls != [] {
      var k := |calls| - 1;
      DoneIsStable(sh, req, calls[..k]);
      RunKeeps(sh, req, calls[..k]);
      DoneMeansOver(sh, Run(sh, req, calls[..k]).req, calls[k].maxRows, calls[k].env);
    }
  }
}
