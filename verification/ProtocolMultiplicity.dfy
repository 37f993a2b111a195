/** How many copies of a row reach the client on an arbitrary overlay: one for
    every time its owner was asked, never more, and exactly that many when no call fails. */
module ProtocolMultiplicity {
  import opened Results
  import opened Graph
  import opened LocalScan
  import opened ChunkSizing
  import opened Forwarding
  import opened Protocol
  import opened ProtocolInvariants
  import opened ProtocolDelivery

  /** Occurrences of trip `t` among the rows labelled `s`. */
  function Copies(rows: Labelled, s: NodeId, t: TaxiTrip): nat {
    multiset(Proj(s, rows))[t]
  }

  function CopiesIn(trips: seq<TaxiTrip>, t: TaxiTrip): nat {
    multiset(trips)[t]
  }

  /** Copies this request can still hand out. */
  function CopiesLeft(sh: Shards, req: Req, s: NodeId, t: TaxiTrip): nat
    decreases req, 1
  {
    if Stopped(req) then 0 else Copies(UnreadRows(req), s, t) + CopiesBelow(sh, req, s, t)
  }

  function CopiesBelow(sh: Shards, req: Req, s: NodeId, t: TaxiTrip): nat
    decreases req, 0
  {
    CopiesIn(LocalPending(sh, req, s), t) + CopiesAll(sh, req.kids, s, t)
  }

  function CopiesAll(sh: Shards, kids: seq<Kid>, s: NodeId, t: TaxiTrip): nat
    decreases kids
  {
    if kids == [] then 0
    else
      var k := |kids| - 1;
      CopiesAll(sh, kids[..k], s, t) + CopiesKid(sh, kids[k], s, t)
  }

  function CopiesKid(sh: Shards, kid: Kid, s: NodeId, t: TaxiTrip): nat
    decreases kid
  {
    if kid.progress.completed then 0 else CopiesLeft(sh, kid.remote, s, t)
  }

  lemma CopiesAppend(a: Labelled, b: Labelled, s: NodeId, t: TaxiTrip)
    ensures Copies(a + b, s, t) == Copies(a, s, t) + Copies(b, s, t)
  {
    ProjAppend(s, a, b);
  }

  lemma MergedCopies(q: QueryResult, r: QueryResult, s: NodeId, t: TaxiTrip)
    requires Tidy(q)
    ensures Copies(LabelledRows(q.Merge(r)), s, t) == Copies(LabelledRows(q), s, t) + Copies(LabelledRows(r), s, t)
  {
    MergedRows(q, r, s);
  }

  lemma CopiesAllAppend(sh: Shards, before: seq<Kid>, last: Kid, s: NodeId, t: TaxiTrip)
    ensures CopiesAll(sh, before + [last], s, t) == CopiesAll(sh, before, s, t) + CopiesKid(sh, last, s, t)
  {
    assert (before + [last])[..|before|] == before;
  }

  /** What went out and what is left never exceeds what was there, and equals it when `exact`. */
  ghost predicate Balanced(out: nat, after: nat, before: nat, exact: bool) {
    out + after <= before && (exact ==> out + after == before)
  }

  lemma PullLocalBalances(sh: Shards, node: NodeId, local: Progress, maxRows: nat, pressure: real, s: NodeId,
      t: TaxiTrip)
    requires local.nextStartRow <= |sh(node)|
    requires local.completed ==> local.nextStartRow == |sh(node)|
    ensures var (after, own) := PullLocal(sh, node, local, maxRows, pressure);
      Copies(LabelledRows(own), s, t) + (if s == node then CopiesIn(Rest(sh(s), after.nextStartRow), t) else 0)
        == if s == node then CopiesIn(Rest(sh(s), local.nextStartRow), t) else 0
  {
    PullLocalDelivers(sh, node, local, maxRows, pressure, s);
  }

  lemma {:induction false} PullKidBalances(sh: Shards, kid: Kid, maxRows: nat, ce: CallEnv, s: NodeId, t: TaxiTrip)
    requires WellFormed(sh, kid.remote)
    ensures var (after, partial) := PullKid(sh, kid, maxRows, ce);
      Balanced(Copies(LabelledRows(partial), s, t), CopiesKid(sh, after, s, t), CopiesKid(sh, kid, s, t),
          ReliableCall(kid, ce))
    decreases kid
  {
    var want := AdaptiveChunk(maxRows, ce.pressure);
    match ce.fetch
    case Undelivered =>
    case ReplyLost(env) =>
    case Replied(env) =>
      FetchKeeps(sh, kid.remote, want, env);
      FetchBalances(sh, kid.remote, want, env, s, t);
      DoneLeavesNoCopies(sh, kid.remote, want, env, s, t);
  }

  lemma {:induction false} PullKidsBalance(sh: Shards, kids: seq<Kid>, maxRows: nat, calls: seq<CallEnv>, s: NodeId,
      t: TaxiTrip)
    requires AllWellFormed(sh, kids)
    ensures var (after, gathered) := PullKids(sh, kids, maxRows, calls);
      Balanced(Copies(LabelledRows(gathered), s, t), CopiesAll(sh, after, s, t), CopiesAll(sh, kids, s, t),
          ReliableCalls(kids, calls))
    decreases kids
  {
    if kids != [] {
      var k := |kids| - 1;
      PullKidsBalance(sh, kids[..k], maxRows, calls, s, t);
      PullKidBalances(sh, kids[k], maxRows, CallAt(calls, k), s, t);
      PullKidsKeeps(sh, kids[..k], maxRows, calls);
      MergedCopies(PullKids(sh, kids[..k], maxRows, calls).1, PullKid(sh, kids[k], maxRows, CallAt(calls, k)).1, s, t);
      CopiesAllAppend(sh, PullKids(sh, kids[..k], maxRows, calls).0,
          PullKid(sh, kids[k], maxRows, CallAt(calls, k)).0, s, t);
    }
  }

  lemma FilledBalances(sh: Shards, req: Req, here: (Progress, QueryResult), below: (seq<Kid>, QueryResult),
      s: NodeId, t: TaxiTrip, exact: bool)
    requires WindowRead(req) && Tidy(here.1) && Tidy(below.1)
    requires Copies(LabelledRows(here.1), s, t) + CopiesIn(LocalPending(sh, req.(local := here.0), s), t)
      == CopiesIn(LocalPending(sh, req, s), t)
    requires Balanced(Copies(LabelledRows(below.1), s, t), CopiesAll(sh, below.0, s, t),
      CopiesAll(sh, req.kids, s, t), exact)
    ensures Balanced(Copies(UnreadRows(Filled(req, here, below)), s, t),
      CopiesBelow(sh, Filled(req, here, below), s, t), CopiesBelow(sh, req, s, t), exact)
  {
    WindowAfterPull(req, here, below);
    MergedCopies(here.1, below.1, s, t);
    MergedCopies(below.1, here.1, s, t);
  }

  lemma {:induction false} PullBalances(sh: Shards, req: Req, maxRows: nat, env: Env, s: NodeId, t: TaxiTrip)
    requires WellFormed(sh, req) && WindowRead(req) && maxRows > 0
    ensures Balanced(Copies(UnreadRows(Pull(sh, req, maxRows, env)), s, t),
      CopiesBelow(sh, Pull(sh, req, maxRows, env), s, t),
                     CopiesBelow(sh, req, s, t), ReliableCalls(req.kids, env.calls))
    decreases req, 0
  {
    PullLocalKeeps(sh, req.node, req.local, maxRows, env.localPressure);
    PullLocalBalances(sh, req.node, req.local, maxRows, env.localPressure, s, t);
    PullKidsKeeps(sh, req.kids, maxRows, env.calls);
    PullKidsBalance(sh, req.kids, maxRows, env.calls, s, t);
    FilledBalances(sh, req, PullLocal(sh, req.node, req.local, maxRows, env.localPressure),
                   PullKids(sh, req.kids, maxRows, env.calls), s, t, ReliableCalls(req.kids, env.calls));
  }

  lemma ServeBalances(sh: Shards, req: Req, limit: nat, s: NodeId, t: TaxiTrip)
    requires WellFormed(sh, req) && !Stopped(req)
    ensures var (next, reply) := Serve(req, limit);
      Copies(Zip(reply.trips, reply.sources), s, t) + CopiesLeft(sh, next, s, t)
          == Copies(UnreadRows(req), s, t) + CopiesBelow(sh, req, s, t)
  {
    var (next, reply) := Serve(req, limit);
    ServeSplitsWindow(sh, req, limit);
    CopiesAppend(Zip(reply.trips, reply.sources), UnreadRows(next), s, t);
    SameCopiesBelow(sh, req, next, s, t);
  }

  lemma SameCopiesBelow(sh: Shards, a: Req, b: Req, s: NodeId, t: TaxiTrip)
    requires a.node == b.node && a.local == b.local && a.kids == b.kids && !Stopped(b)
    ensures CopiesLeft(sh, b, s, t) == Copies(UnreadRows(b), s, t) + CopiesBelow(sh, a, s, t)
  {
  }

  lemma {:induction false} FetchBalances(sh: Shards, req: Req, maxRows: nat, env: Env, s: NodeId, t: TaxiTrip)
    requires WellFormed(sh, req)
    ensures var (next, reply) := Fetch(sh, req, maxRows, env);
      Balanced(Copies(Zip(reply.trips, reply.sources), s, t), CopiesLeft(sh, next, s, t), CopiesLeft(sh, req, s, t),
          Reliable(req, env))
    decreases req, 1
  {
    if env.interrupt.NoInterrupt? && !Stopped(req) {
      var limit := AdaptiveChunk(maxRows, env.pressure);
      if WindowRead(req) && !AllCompleted(req) {
        PullKeeps(sh, req, limit, env);
        PullBalances(sh, req, limit, env, s, t);
        ServeBalances(sh, Pull(sh, req, limit, env), limit, s, t);
        ReadWindowCopies(sh, req, s, t);
        assert Reliable(req, env) ==> ReliableCalls(req.kids, env.calls);
      } else {
        ServeBalances(sh, req, limit, s, t);
      }
    }
  }

  lemma ReadWindowCopies(sh: Shards, req: Req, s: NodeId, t: TaxiTrip)
    requires WellFormed(sh, req) && WindowRead(req) && !Stopped(req)
    ensures CopiesLeft(sh, req, s, t) == CopiesBelow(sh, req, s, t)
  {
    assert UnreadRows(req) == [];
  }

  lemma {:induction false} AllCompletedNoCopies(sh: Shards, kids: seq<Kid>, s: NodeId, t: TaxiTrip)
    requires AllKidsCompleted(kids)
    ensures CopiesAll(sh, kids, s, t) == 0
    decreases kids
  {
    if kids != [] {
      AllCompletedNoCopies(sh, kids[..|kids| - 1], s, t);
    }
  }

  lemma DoneLeavesNoCopies(sh: Shards, req: Req, maxRows: nat, env: Env, s: NodeId, t: TaxiTrip)
    requires WellFormed(sh, req)
    ensures var (next, reply) := Fetch(sh, req, maxRows, env);
      reply.done ==> CopiesLeft(sh, next, s, t) == 0
  {
    var (next, reply) := Fetch(sh, req, maxRows, env);
    FetchKeeps(sh, req, maxRows, env);
    DoneMeansOver(sh, req, maxRows, env);
    if reply.done && !Stopped(next) {
      AllCompletedNoCopies(sh, next.kids, s, t);
      assert UnreadRows(next) == [];
    }
  }

  lemma {:induction false} StartCopies(sh: Shards, p: Plan, s: NodeId, t: TaxiTrip)
    ensures CopiesLeft(sh, Start(p), s, t) == Occ(p, s) * CopiesIn(AllTrips(sh(s)), t)
    decreases p, 0
  {
    var n := CopiesIn(AllTrips(sh(s)), t);
    StartAllCopies(sh, p.kids, s, t);
    StartCopiesHere(sh, p, s, t);
    if p.node == s {
      TimesSum(1, OccAll(p.kids, s), n);
    }
  }

  /** A new request has nothing cached, its own shard ahead of it, and its children. */
  lemma StartCopiesHere(sh: Shards, p: Plan, s: NodeId, t: TaxiTrip)
    ensures CopiesLeft(sh, Start(p), s, t)
         == (if p.node == s then CopiesIn(AllTrips(sh(s)), t) else 0) + CopiesAll(sh, StartAll(p.kids), s, t)
  {
    assert UnreadRows(Start(p)) == [];
  }

  lemma TimesSum(a: nat, b: nat, n: nat)
    ensures (a + b) * n == a * n + b * n
  {
  }

  lemma {:induction false} StartAllCopies(sh: Shards, ps: seq<Plan>, s: NodeId, t: TaxiTrip)
    ensures CopiesAll(sh, StartAll(ps), s, t) == OccAll(ps, s) * CopiesIn(AllTrips(sh(s)), t)
    decreases ps, 1
  {
    if ps != [] {
      var k := |ps| - 1;
      StartAllCopies(sh, ps[..k], s, t);
      StartCopies(sh, ps[k], s, t);
      CopiesAllAppend(sh, StartAll(ps[..k]), Kid(ps[k].node, FRESH_PROGRESS, Start(ps[k])), s, t);
      TimesSum(OccAll(ps[..k], s), Occ(ps[k], s), CopiesIn(AllTrips(sh(s)), t));
    }
  }

  lemma {:induction false} RunBalances(sh: Shards, p: Plan, calls: seq<Call>, s: NodeId, t: TaxiTrip)
    ensures var r := Run(sh, Start(p), calls);
      Balanced(Copies(Delivered(r.replies), s, t), CopiesLeft(sh, r.req, s, t), CopiesLeft(sh, Start(p), s, t),
          ReliableRun(sh, Start(p), calls))
  {
    if calls != [] {
      var k := |calls| - 1;
      var before := Run(sh, Start(p), calls[..k]);
      var reply := Fetch(sh, before.req, calls[k].maxRows, calls[k].env).1;
      RunBalances(sh, p, calls[..k], s, t);
      StartIsWellFormed(sh, p);
      RunKeeps(sh, Start(p), calls[..k]);
      FetchBalances(sh, before.req, calls[k].maxRows, calls[k].env, s, t);
      DeliveredThenReply(before.replies, reply, s);
    }
  }

  /** On any overlay, and whatever fails, the client never receives a row
      more often than its owner was asked; without failures, at `done` it has received every
      matching row exactly that often. */
  lemma {:induction false} EveryRowOncePerRequest(sh: Shards, ov: Overlay, entry: NodeId, calls: seq<Call>,
      s: NodeId, t: TaxiTrip)
    ensures var p := ClientPlan(ov, entry);
      var r := Run(sh, Start(p), calls);
      && Copies(Delivered(r.replies), s, t) <= Occ(p, s) * CopiesIn(AllTrips(sh(s)), t)
      && (calls != [] && ReliableRun(sh, Start(p), calls) && r.replies[|calls| - 1].done ==>
            Copies(Delivered(r.replies), s, t) == Occ(p, s) * CopiesIn(AllTrips(sh(s)), t))
  {
    var p := ClientPlan(ov, entry);
    RunBalances(sh, p, calls, s, t);
    StartCopies(sh, p, s, t);
    if calls != [] {
      var k := |calls| - 1;
      StartIsWellFormed(sh, p);
      RunKeeps(sh, Start(p), calls[..k]);
      DoneLeavesNoCopies(sh, Run(sh, Start(p), calls[..k]).req, calls[k].maxRows, calls[k].env, s, t);
    }
  }
}
