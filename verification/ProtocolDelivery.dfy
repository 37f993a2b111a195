/** What reaches the client, source by source: always a prefix of the
    source's matching rows in scan order, and all of them when no call fails. */
module ProtocolDelivery {
  import opened Results
  import opened Graph
  import opened LocalScan
  import opened ChunkSizing
  import opened Forwarding
  import opened Protocol
  import opened ProtocolInvariants

  // ----- what is still to come from one source

  function Rest(rows: seq<Row>, next: nat): seq<TaxiTrip> {
    if next <= |rows| then TripsIn(rows, next, |rows|) else []
  }

  function UnreadRows(req: Req): Labelled {
    if req.cursor <= |req.agg.trips| && req.cursor <= |req.agg.sources|
    then Zip(req.agg.trips[req.cursor..], req.agg.sources[req.cursor..])
    else []
  }

  /** Rows of source `s` that this request can still hand out: unread in its
      window, then unscanned here or pending at the children it has not given up. */
  function PendingOf(sh: Shards, req: Req, s: NodeId): seq<TaxiTrip>
    decreases req, 1
  {
    if Stopped(req) then []
    else Proj(s, UnreadRows(req)) + PendingBelow(sh, req, s)
  }

  function PendingBelow(sh: Shards, req: Req, s: NodeId): seq<TaxiTrip>
    decreases req, 0
  {
    LocalPending(sh, req, s) + PendingAll(sh, req.kids, s)
  }

  function LocalPending(sh: Shards, req: Req, s: NodeId): seq<TaxiTrip> {
    if req.node == s then Rest(sh(s), req.local.nextStartRow) else []
  }

  function PendingAll(sh: Shards, kids: seq<Kid>, s: NodeId): seq<TaxiTrip>
    decreases kids
  {
    if kids == [] then []
    else
      var k := |kids| - 1;
      PendingAll(sh, kids[..k], s) + PendingKid(sh, kids[k], s)
  }

  function PendingKid(sh: Shards, kid: Kid, s: NodeId): seq<TaxiTrip>
    decreases kid
  {
    if kid.progress.completed then [] else PendingOf(sh, kid.remote, s)
  }

  lemma {:induction false} ProjAppend(s: NodeId, a: Labelled, b: Labelled)
    ensures Proj(s, a + b) == Proj(s, a) + Proj(s, b)
    decreases |b|
  {
    if b == [] {
      assert a + b == a;
    } else {
      var k := |b| - 1;
      ProjAppend(s, a, b[..k]);
      assert (a + b)[..|a| + k] == a + b[..k];
    }
  }

  lemma {:induction false} ProjOfOneSource(s: NodeId, node: NodeId, trips: seq<TaxiTrip>)
    ensures Proj(s, Zip(trips, Repeat(node, |trips|))) == if s == node then trips else []
  {
    if trips == [] {
    } else {
      var k := |trips| - 1;
      ProjOfOneSource(s, node, trips[..k]);
      assert Zip(trips, Repeat(node, |trips|))[..k] == Zip(trips[..k], Repeat(node, k));
      assert trips == trips[..k] + [trips[k]];
    }
  }

  lemma {:induction false} NotAskedNotPending(sh: Shards, req: Req, s: NodeId)
    requires WellFormed(sh, req) && Asked(req, s) == 0
    ensures PendingOf(sh, req, s) == []
    decreases req
  {
    forall i | 0 <= i < |UnreadRows(req)| ensures UnreadRows(req)[i].0 != s {
      assert UnreadRows(req)[i].0 in req.agg.sources;
    }
    ProjOfOthers(s, UnreadRows(req));
    NotAskedNotPendingAll(sh, req.kids, s);
  }

  lemma {:induction false} NotAskedNotPendingAll(sh: Shards, kids: seq<Kid>, s: NodeId)
    requires AllWellFormed(sh, kids) && AskedAll(kids, s) == 0
    ensures PendingAll(sh, kids, s) == []
    decreases kids
  {
    if kids != [] {
      NotAskedNotPendingAll(sh, kids[..|kids| - 1], s);
      NotAskedNotPending(sh, kids[|kids| - 1].remote, s);
    }
  }

  lemma {:induction false} ProjOfOthers(s: NodeId, rows: Labelled)
    requires forall i :: 0 <= i < |rows| ==> rows[i].0 != s
    ensures Proj(s, rows) == []
  {
    if rows != [] {
      ProjOfOthers(s, rows[..|rows| - 1]);
    }
  }

  // ----- one fetch

  lemma PullLocalDelivers(sh: Shards, node: NodeId, local: Progress, maxRows: nat, pressure: real, s: NodeId)
    requires local.nextStartRow <= |sh(node)|
    requires local.completed ==> local.nextStartRow == |sh(node)|
    ensures var (after, own) := PullLocal(sh, node, local, maxRows, pressure);
      && (s == node ==> Proj(s, LabelledRows(own)) + Rest(sh(s), after.nextStartRow) == Rest(sh(s), local.nextStartRow))
      && (s != node ==> Proj(s, LabelledRows(own)) == [])
  {
    var (after, own) := PullLocal(sh, node, local, maxRows, pressure);
    PullLocalKeeps(sh, node, local, maxRows, pressure);
    ProjOfOneSource(s, node, own.trips);
    MatchingSplits(sh(node), local.nextStartRow, after.nextStartRow, |sh(node)|);
  }

  /** `after` is what remains of `before` once `out` was handed out: a prefix in general, all of it when `exact`. */
  ghost predicate Continues(out: seq<TaxiTrip>, after: seq<TaxiTrip>, before: seq<TaxiTrip>, exact: bool) {
    && out + after <= before
    && (exact ==> out + after == before)
  }

  lemma {:induction false} PullKidDelivers(sh: Shards, kid: Kid, maxRows: nat, ce: CallEnv, s: NodeId)
    requires WellFormed(sh, kid.remote) && Asked(kid.remote, s) <= 1
    ensures var (after, partial) := PullKid(sh, kid, maxRows, ce);
      Continues(Proj(s, LabelledRows(partial)), PendingKid(sh, after, s), PendingKid(sh, kid, s), ReliableCall(kid, ce))
    decreases kid
  {
    if ce.fetch.Replied? {
      var want := AdaptiveChunk(maxRows, ce.pressure);
      FetchKeeps(sh, kid.remote, want, ce.fetch.env);
      FetchDelivers(sh, kid.remote, want, ce.fetch.env, s);
      DoneLeavesNothing(sh, kid.remote, want, ce.fetch.env, s);
      AnsweredDelivers(sh, kid, maxRows, ce, s);
    }
  }

  /** A child that answers passes on what its fetch handed out. */
  lemma AnsweredDelivers(sh: Shards, kid: Kid, maxRows: nat, ce: CallEnv, s: NodeId)
    requires ce.fetch.Replied?
    requires var (next, reply) := Fetch(sh, kid.remote, AdaptiveChunk(maxRows, ce.pressure), ce.fetch.env);
      && |reply.trips| == |reply.sources|
      && Continues(Proj(s, Zip(reply.trips, reply.sources)), PendingOf(sh, next, s), PendingOf(sh, kid.remote, s),
                   Reliable(kid.remote, ce.fetch.env))
      && (reply.done ==> PendingOf(sh, next, s) == [])
    ensures var (after, partial) := PullKid(sh, kid, maxRows, ce);
      Continues(Proj(s, LabelledRows(partial)), PendingKid(sh, after, s), PendingKid(sh, kid, s), ReliableCall(kid, ce))
  {
  }

  /** Two workers side by side, of which at most one has anything from the source. */
  lemma SidesJoin(a: seq<TaxiTrip>, x': seq<TaxiTrip>, x: seq<TaxiTrip>, e: bool, b: seq<TaxiTrip>,
      y': seq<TaxiTrip>, y: seq<TaxiTrip>, f: bool)
    requires Continues(a, x', x, e) && Continues(b, y', y, f) && (x == [] || y == [])
    ensures Continues(a + b, x' + y', x + y, e && f)
    ensures Continues(b + a, x' + y', x + y, e && f)
  {
    if x == [] {
      assert a == [] && x' == [];
      assert a + b == b && b + a == b && x' + y' == y' && x + y == y;
    } else {
      assert b == [] && y' == [];
      assert a + b == a && b + a == a && x' + y' == x' && x + y == x;
    }
  }

  function LabelledRows(q: QueryResult): Labelled {
    Zip(q.trips, q.sources)
  }

  lemma MergedRows(q: QueryResult, r: QueryResult, s: NodeId)
    requires Tidy(q)
    ensures Proj(s, LabelledRows(q.Merge(r))) == Proj(s, LabelledRows(q)) + Proj(s, LabelledRows(r))
  {
    ZipAppend(q.trips, q.sources, r.trips, r.sources);
    ProjAppend(s, LabelledRows(q), LabelledRows(r));
  }

  lemma PendingAllAppend(sh: Shards, before: seq<Kid>, last: Kid, s: NodeId)
    ensures PendingAll(sh, before + [last], s) == PendingAll(sh, before, s) + PendingKid(sh, last, s)
  {
    assert (before + [last])[..|before|] == before;
  }

  lemma {:induction false} PullKidsDeliver(sh: Shards, kids: seq<Kid>, maxRows: nat, calls: seq<CallEnv>, s: NodeId)
    requires AllWellFormed(sh, kids) && AskedAll(kids, s) <= 1
    ensures var (after, gathered) := PullKids(sh, kids, maxRows, calls);
      Continues(Proj(s, LabelledRows(gathered)), PendingAll(sh, after, s), PendingAll(sh, kids, s),
          ReliableCalls(kids, calls))
    decreases kids
  {
    if kids != [] {
      var k := |kids| - 1;
      PullKidsDeliver(sh, kids[..k], maxRows, calls, s);
      PullKidDelivers(sh, kids[k], maxRows, CallAt(calls, k), s);
      PullKidsDeliverStep(sh, kids, maxRows, calls, s);
    }
  }

  lemma PullKidsDeliverStep(sh: Shards, kids: seq<Kid>, maxRows: nat, calls: seq<CallEnv>, s: NodeId)
    requires kids != [] && AllWellFormed(sh, kids) && AskedAll(kids, s) <= 1
    requires var k := |kids| - 1;
      var (before, partial) := PullKids(sh, kids[..k], maxRows, calls);
      var (last, lastResult) := PullKid(sh, kids[k], maxRows, CallAt(calls, k));
      && Continues(Proj(s, LabelledRows(partial)), PendingAll(sh, before, s), PendingAll(sh, kids[..k], s),
          ReliableCalls(kids[..k], calls))
      && Continues(Proj(s, LabelledRows(lastResult)), PendingKid(sh, last, s), PendingKid(sh, kids[k], s),
          ReliableCall(kids[k], CallAt(calls, k)))
    ensures var (after, gathered) := PullKids(sh, kids, maxRows, calls);
      Continues(Proj(s, LabelledRows(gathered)), PendingAll(sh, after, s), PendingAll(sh, kids, s),
          ReliableCalls(kids, calls))
  {
    var k := |kids| - 1;
    var (before, partial) := PullKids(sh, kids[..k], maxRows, calls);
    var (last, lastResult) := PullKid(sh, kids[k], maxRows, CallAt(calls, k));
    PullKidsKeeps(sh, kids[..k], maxRows, calls);
    OneSideSilent(sh, kids, s);
    AppendDelivers(sh, kids, before, partial, last, lastResult, s, ReliableCalls(kids[..k], calls),
        ReliableCall(kids[k], CallAt(calls, k)));
  }

  lemma OneSideSilent(sh: Shards, kids: seq<Kid>, s: NodeId)
    requires kids != [] && AllWellFormed(sh, kids) && AskedAll(kids, s) <= 1
    ensures PendingAll(sh, kids[..|kids| - 1], s) == [] || PendingKid(sh, kids[|kids| - 1], s) == []
  {
    var k := |kids| - 1;
    if Asked(kids[k].remote, s) == 0 {
      NotAskedNotPending(sh, kids[k].remote, s);
    } else {
      NotAskedNotPendingAll(sh, kids[..k], s);
    }
  }

  lemma AppendDelivers(sh: Shards, kids: seq<Kid>, before: seq<Kid>, partial: QueryResult, last: Kid,
      lastResult: QueryResult, s: NodeId, e: bool, f: bool)
    requires kids != [] && Tidy(partial)
    requires PendingAll(sh, kids[..|kids| - 1], s) == [] || PendingKid(sh, kids[|kids| - 1], s) == []
    requires Continues(Proj(s, LabelledRows(partial)), PendingAll(sh, before, s),
      PendingAll(sh, kids[..|kids| - 1], s), e)
    requires Continues(Proj(s, LabelledRows(lastResult)), PendingKid(sh, last, s),
      PendingKid(sh, kids[|kids| - 1], s), f)
    ensures Continues(Proj(s, LabelledRows(partial.Merge(lastResult))), PendingAll(sh, before + [last], s),
      PendingAll(sh, kids, s), e && f)
  {
    MergedRows(partial, lastResult, s);
    PendingAllAppend(sh, before, last, s);
    SidesJoin(Proj(s, LabelledRows(partial)), PendingAll(sh, before, s), PendingAll(sh, kids[..|kids| - 1], s), e,
              Proj(s, LabelledRows(lastResult)), PendingKid(sh, last, s), PendingKid(sh, kids[|kids| - 1], s), f);
  }

  /** A refilled window holds the local chunk and the children's chunks, in the order of the round. */
  lemma WindowAfterPull(req: Req, here: (Progress, QueryResult), below: (seq<Kid>, QueryResult))
    requires WindowRead(req)
    ensures UnreadRows(Filled(req, here, below)) ==
      LabelledRows(if req.round % 2 == 1 then below.1.Merge(here.1) else here.1.Merge(below.1))
  {
    var (first, second) := if req.round % 2 == 1 then (below.1, here.1) else (here.1, below.1);
    var next := Filled(req, here, below);
    assert next.agg == req.agg.Cleared().Merge(first).Merge(second);
    assert next.agg.trips == first.trips + second.trips;
    assert next.agg.sources == first.sources + second.sources;
    assert next.agg.trips[0..] == next.agg.trips && next.agg.sources[0..] == next.agg.sources;
  }

  lemma FilledDelivers(sh: Shards, req: Req, here: (Progress, QueryResult), below: (seq<Kid>, QueryResult),
      s: NodeId, exact: bool)
    requires WindowRead(req) && Tidy(here.1) && Tidy(below.1)
    requires LocalPending(sh, req, s) == [] || PendingAll(sh, req.kids, s) == []
    requires Continues(Proj(s, LabelledRows(here.1)), LocalPending(sh, req.(local := here.0), s),
      LocalPending(sh, req, s), true)
    requires Continues(Proj(s, LabelledRows(below.1)), PendingAll(sh, below.0, s), PendingAll(sh, req.kids, s), exact)
    ensures Continues(Proj(s, UnreadRows(Filled(req, here, below))), PendingBelow(sh, Filled(req, here, below), s),
      PendingBelow(sh, req, s), exact)
  {
    SidesJoin(Proj(s, LabelledRows(here.1)), LocalPending(sh, req.(local := here.0), s), LocalPending(sh, req, s), true,
              Proj(s, LabelledRows(below.1)), PendingAll(sh, below.0, s), PendingAll(sh, req.kids, s), exact);
    WindowAfterPull(req, here, below);
    MergedRows(here.1, below.1, s);
    MergedRows(below.1, here.1, s);
  }

  /** A pull moves rows from below into the empty window without loss or reordering. */
  lemma {:induction false} PullDelivers(sh: Shards, req: Req, maxRows: nat, env: Env, s: NodeId)
    requires WellFormed(sh, req) && Asked(req, s) <= 1 && WindowRead(req) && maxRows > 0
    ensures Continues(Proj(s, UnreadRows(Pull(sh, req, maxRows, env))),
      PendingBelow(sh, Pull(sh, req, maxRows, env), s),
                      PendingBelow(sh, req, s), ReliableCalls(req.kids, env.calls))
    decreases req, 0
  {
    PullLocalKeeps(sh, req.node, req.local, maxRows, env.localPressure);
    PullLocalDelivers(sh, req.node, req.local, maxRows, env.localPressure, s);
    PullKidsKeeps(sh, req.kids, maxRows, env.calls);
    PullKidsDeliver(sh, req.kids, maxRows, env.calls, s);
    if s == req.node {
      NotAskedNotPendingAll(sh, req.kids, s);
    }
    FilledDelivers(sh, req, PullLocal(sh, req.node, req.local, maxRows, env.localPressure),
                   PullKids(sh, req.kids, maxRows, env.calls), s, ReliableCalls(req.kids, env.calls));
  }

  lemma WindowCut(trips: seq<TaxiTrip>, sources: seq<NodeId>, from: nat, end: nat)
    requires |trips| == |sources| && from <= end <= |trips|
    ensures Zip(trips[from..], sources[from..])
      == Zip(trips[from..end], sources[from..end]) + Zip(trips[end..], sources[end..])
  {
  }

  lemma ServeSplitsWindow(sh: Shards, req: Req, limit: nat)
    requires WellFormed(sh, req)
    ensures var (next, reply) := Serve(req, limit);
      && UnreadRows(req) == Zip(reply.trips, reply.sources) + UnreadRows(next)
      && next.node == req.node && next.local == req.local && next.kids == req.kids
      && (!Stopped(req) ==> !Stopped(next))
  {
    var (next, reply) := Serve(req, limit);
    ServeKeeps(sh, req, limit);
    WindowCut(req.agg.trips, req.agg.sources, req.cursor, next.cursor);
  }

  lemma ServeDelivers(sh: Shards, req: Req, limit: nat, s: NodeId)
    requires WellFormed(sh, req) && !Stopped(req)
    ensures var (next, reply) := Serve(req, limit);
      Proj(s, Zip(reply.trips, reply.sources)) + PendingOf(sh, next, s)
          == Proj(s, UnreadRows(req)) + PendingBelow(sh, req, s)
  {
    var (next, reply) := Serve(req, limit);
    ServeSplitsWindow(sh, req, limit);
    HandedOut(sh, req, next, Zip(reply.trips, reply.sources), s);
  }

  lemma HandedOut(sh: Shards, req: Req, next: Req, out: Labelled, s: NodeId)
    requires UnreadRows(req) == out + UnreadRows(next)
    requires next.node == req.node && next.local == req.local && next.kids == req.kids && !Stopped(next)
    ensures Proj(s, out) + PendingOf(sh, next, s) == Proj(s, UnreadRows(req)) + PendingBelow(sh, req, s)
  {
    ProjAppend(s, out, UnreadRows(next));
    SamePendingBelow(sh, req, next, s);
    var unread, below := Proj(s, UnreadRows(next)), PendingBelow(sh, req, s);
    assert (Proj(s, out) + unread) + below == Proj(s, out) + (unread + below);
  }

  lemma SamePendingBelow(sh: Shards, a: Req, b: Req, s: NodeId)
    requires a.node == b.node && a.local == b.local && a.kids == b.kids && !Stopped(b)
    ensures PendingOf(sh, b, s) == Proj(s, UnreadRows(b)) + PendingBelow(sh, a, s)
  {
  }

  /** One fetch, seen from one source: what it hands out and what can still
      come is a prefix of what could come before, and all of it when nothing failed. */
  lemma {:induction false} FetchDelivers(sh: Shards, req: Req, maxRows: nat, env: Env, s: NodeId)
    requires WellFormed(sh, req) && Asked(req, s) <= 1
    ensures var (next, reply) := Fetch(sh, req, maxRows, env);
      Continues(Proj(s, Zip(reply.trips, reply.sources)), PendingOf(sh, next, s), PendingOf(sh, req, s),
          Reliable(req, env))
    decreases req, 1
  {
    if env.interrupt.NoInterrupt? && !Stopped(req) {
      var limit := AdaptiveChunk(maxRows, env.pressure);
      if WindowRead(req) && !AllCompleted(req) {
        PullKeeps(sh, req, limit, env);
        PullDelivers(sh, req, limit, env, s);
        ServeDelivers(sh, Pull(sh, req, limit, env), limit, s);
        ReadWindowPending(sh, req, s);
        assert Reliable(req, env) ==> ReliableCalls(req.kids, env.calls);
      } else {
        ServeDelivers(sh, req, limit, s);
      }
    }
  }

  lemma ReadWindowPending(sh: Shards, req: Req, s: NodeId)
    requires WellFormed(sh, req) && WindowRead(req) && !Stopped(req)
    ensures PendingOf(sh, req, s) == PendingBelow(sh, req, s)
  {
    assert UnreadRows(req) == [];
  }

  lemma {:induction false} AllCompletedNothingPending(sh: Shards, kids: seq<Kid>, s: NodeId)
    requires AllKidsCompleted(kids)
    ensures PendingAll(sh, kids, s) == []
    decreases kids
  {
    if kids != [] {
      AllCompletedNothingPending(sh, kids[..|kids| - 1], s);
    }
  }

  lemma OverMeansNothingPending(sh: Shards, req: Req, s: NodeId)
    requires WellFormed(sh, req) && Over(req)
    ensures PendingOf(sh, req, s) == []
  {
    if !Stopped(req) {
      AllCompletedNothingPending(sh, req.kids, s);
    }
  }

  lemma DoneLeavesNothing(sh: Shards, req: Req, maxRows: nat, env: Env, s: NodeId)
    requires WellFormed(sh, req)
    ensures var (next, reply) := Fetch(sh, req, maxRows, env);
      reply.done ==> PendingOf(sh, next, s) == []
  {
    var (next, reply) := Fetch(sh, req, maxRows, env);
    FetchKeeps(sh, req, maxRows, env);
    DoneMeansOver(sh, req, maxRows, env);
    if reply.done {
      OverMeansNothingPending(sh, next, s);
    }
  }

  // ----- whole runs

  lemma {:induction false} StartPending(sh: Shards, p: Plan, s: NodeId)
    requires Occ(p, s) <= 1
    ensures PendingOf(sh, Start(p), s) == if Occ(p, s) == 1 then AllTrips(sh(s)) else []
    decreases p, 0
  {
    StartAllPending(sh, p.kids, s);
  }

  lemma {:induction false} StartAllPending(sh: Shards, ps: seq<Plan>, s: NodeId)
    requires OccAll(ps, s) <= 1
    ensures PendingAll(sh, StartAll(ps), s) == if OccAll(ps, s) == 1 then AllTrips(sh(s)) else []
    decreases ps, 1
  {
    if ps != [] {
      var k := |ps| - 1;
      StartAllPending(sh, ps[..k], s);
      StartPending(sh, ps[k], s);
      assert StartAll(ps)[..k] == StartAll(ps[..k]);
    }
  }

  lemma {:induction false} RunDelivers(sh: Shards, p: Plan, calls: seq<Call>, s: NodeId)
    requires Occ(p, s) <= 1
    ensures var r := Run(sh, Start(p), calls);
      Continues(Proj(s, Delivered(r.replies)), PendingOf(sh, r.req, s), PendingOf(sh, Start(p), s),
          ReliableRun(sh, Start(p), calls))
  {
    if calls != [] {
      var k := |calls| - 1;
      var before := Run(sh, Start(p), calls[..k]);
      RunDelivers(sh, p, calls[..k], s);
      StartIsWellFormed(sh, p);
      StartAsks(p, s);
      RunKeeps(sh, Start(p), calls[..k]);
      FetchDelivers(sh, before.req, calls[k].maxRows, calls[k].env, s);
      var (next, reply) := Fetch(sh, before.req, calls[k].maxRows, calls[k].env);
      DeliveredThenReply(before.replies, reply, s);
      ContinuesOn(Proj(s, Delivered(before.replies)), PendingOf(sh, before.req, s), PendingOf(sh, Start(p), s),
          ReliableRun(sh, Start(p), calls[..k]),
                  Proj(s, Zip(reply.trips, reply.sources)), PendingOf(sh, next, s), Reliable(before.req, calls[k].env));
    }
  }

  lemma ContinuesOn(a: seq<TaxiTrip>, y: seq<TaxiTrip>, x: seq<TaxiTrip>, e: bool, b: seq<TaxiTrip>,
      z: seq<TaxiTrip>, f: bool)
    requires Continues(a, y, x, e) && Continues(b, z, y, f)
    ensures Continues(a + b, z, x, e && f)
  {
    assert (a + b) + z == a + (b + z);
  }

  lemma DeliveredThenReply(replies: seq<Reply>, reply: Reply, s: NodeId)
    ensures Proj(s, Delivered(replies + [reply]))
      == Proj(s, Delivered(replies)) + Proj(s, Zip(reply.trips, reply.sources))
  {
    DeliveredAppend(replies, reply);
    ProjAppend(s, Delivered(replies), Zip(reply.trips, reply.sources));
  }

  /** Failure safety: whatever calls fail and whenever a cancel or timeout arrives,
      at every moment the rows the client has from a source asked once are a
      prefix of that source's matching rows in scan order; an unreachable source delivers nothing. */
  lemma {:induction false} FailuresOnlyTruncate(sh: Shards, ov: Overlay, entry: NodeId, calls: seq<Call>, s: NodeId)
    requires Occ(ClientPlan(ov, entry), s) <= 1
    ensures var got := Proj(s, Delivered(Run(sh, Start(ClientPlan(ov, entry)), calls).replies));
      && got <= AllTrips(sh(s))
      && (!Reaches(ov, entry, s) ==> got == [])
  {
    var p := ClientPlan(ov, entry);
    var run := Run(sh, Start(p), calls);
    RunDelivers(sh, p, calls, s);
    PrefixOfMore(Proj(s, Delivered(run.replies)), PendingOf(sh, run.req, s), PendingOf(sh, Start(p), s));
    StartPending(sh, p, s);
    ForwardingCoversExactlyReachable(ov, entry, s);
  }

  lemma PrefixOfMore(got: seq<TaxiTrip>, after: seq<TaxiTrip>, before: seq<TaxiTrip>)
    requires got + after <= before
    ensures got <= before
  {
  }

  /** End-to-end exactness: on a guarded overlay, when no call fails, the replies up to
      `done` carry exactly the matching rows of every reachable node, once, labelled with
      their owner and in its scan order, whatever chunk sizes and load the run met. */
  lemma {:induction false} ReliableRunsAreExact(sh: Shards, ov: Overlay, entry: NodeId, calls: seq<Call>, s: NodeId)
    requires DistinctChildren(ov) && GuardedOverlay(ov, entry)
    requires calls != [] && ReliableRun(sh, Start(ClientPlan(ov, entry)), calls)
    requires Run(sh, Start(ClientPlan(ov, entry)), calls).replies[|calls| - 1].done
    ensures Proj(s, Delivered(Run(sh, Start(ClientPlan(ov, entry)), calls).replies))
         == if Reaches(ov, entry, s) then AllTrips(sh(s)) else []
  {
    var p := ClientPlan(ov, entry);
    AtMostOnceIffGuarded(ov, entry);
    assert Occ(p, s) <= 1;
    RunDelivers(sh, p, calls, s);
    StartPending(sh, p, s);
    ForwardingCoversExactlyReachable(ov, entry, s);
    var k := |calls| - 1;
    StartIsWellFormed(sh, p);
    RunKeeps(sh, Start(p), calls[..k]);
    DoneLeavesNothing(sh, Run(sh, Start(p), calls[..k]).req, calls[k].maxRows, calls[k].env, s);
  }
}
