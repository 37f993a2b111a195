/** Calls over the records of all nodes do to the trees they hold what the protocol says. */
module NetworkCalls {
  import opened Results
  import opened Graph
  import opened ChunkSizing
  import opened Forwarding
  import opened Protocol
  import opened ProtocolInvariants
  import opened ProtocolReliability
  import opened LocalQueryEngine
  import opened RemoteQueryClients
  import opened Network

  // ----- what a call may move

  /** Only records of the tree, and new ones, differ afterwards. */
  ghost predicate Moved(sys: Tables, sys': Tables, foot: set<Handle>, foot': set<Handle>) {
    && sys'.Valid() && sys.records.Keys <= sys'.records.Keys
    && Agree(sys.records, sys'.records, sys.records.Keys - foot)
    && (forall g :: g in foot' ==> g in foot || g !in sys.records)
  }

  lemma BareAll(req: Req)
    ensures AllCompleted(Bare(req)) <==> AllCompleted(req)
  {
    if AllKidsCompleted(BareKids(req.kids)) {
      forall i | 0 <= i < |req.kids| ensures req.kids[i].progress.completed {
        assert BareKids(req.kids)[i].progress.completed;
      }
    }
  }

  lemma ServeBare(req: Req, limit: nat)
    ensures Serve(Bare(req), limit) == (Bare(Serve(req, limit).0), Serve(req, limit).1)
  {
    BareAll(req);
    if !WindowRead(req) {
      var end := req.cursor + Min(limit, |req.agg.trips| - req.cursor);
      var sources := if |req.agg.sources| >= end then req.agg.sources[req.cursor..end]
          else Repeat(req.node, end - req.cursor);
      var done := end >= |req.agg.trips| && AllCompleted(req);
      ServeIs(req, limit, end, sources, done);
      ServeIs(Bare(req), limit, end, sources, done);
    }
  }

  lemma ServeIs(req: Req, limit: nat, end: nat, sources: seq<NodeId>, done: bool)
    requires !WindowRead(req) && end == req.cursor + Min(limit, |req.agg.trips| - req.cursor)
    requires sources == if |req.agg.sources| >= end then req.agg.sources[req.cursor..end]
      else Repeat(req.node, end - req.cursor)
    requires done <==> end >= |req.agg.trips| && AllCompleted(req)
    ensures Serve(req, limit)
         == (req.(cursor := end, phase := if done then Completed else req.phase),
             Reply(req.agg.trips[req.cursor..end], sources, done))
  {
  }

  lemma FilledBare(req: Req, here: (Progress, QueryResult), below: (seq<Kid>, QueryResult))
    ensures Filled(Bare(req), here, (BareKids(below.0), below.1)) == Bare(Filled(req, here, below))
  {
    BareAll(Filled(req, here, below));
  }

  /** Two moves one after the other, of the same part. */
  lemma MovedOn(sys: Tables, sys1: Tables, sys2: Tables, a: set<Handle>, a1: set<Handle>, a2: set<Handle>)
    requires Moved(sys, sys1, a, a1) && Moved(sys1, sys2, a1, a2)
    ensures Moved(sys, sys2, a, a2)
  {
  }

  /** Where a child's part is once the sub-query is submitted. */
  lemma OpenHolds(ov: Overlay, sys: Tables, f: Filter, passed: set<NodeId>, kid: Kid, id: nat)
    requires sys.Valid() && HoldsKid(ov, sys.records, passed, f, id, kid)
    ensures var asked := if kid.progress.submitted then sys else sys.Accept(ov, kid.id, f, passed);
      var h := (kid.id, if kid.progress.submitted then id else sys.next(kid.id));
      && Holds(ov, asked.records, h, f, kid.remote)
      && Moved(sys, asked, FootKid(sys.records, id, kid), Foot(asked.records, h, kid.remote))
  {
    if !kid.progress.submitted {
      AcceptHolds(ov, sys, kid.id, f, passed);
    }
  }

  /** The child after its part has moved. */
  lemma KidFetched(ov: Overlay, sys: Tables, asked: Tables, moved: Tables, f: Filter, passed: set<NodeId>, kid: Kid,
      id: nat, h: Handle, after: Kid)
    requires h.0 == kid.id == after.id && after.progress.submitted && Holds(ov, moved.records, h, f, after.remote)
    requires Moved(sys, asked, FootKid(sys.records, id, kid), Foot(asked.records, h, kid.remote))
    requires Moved(asked, moved, Foot(asked.records, h, kid.remote), Foot(moved.records, h, after.remote))
    ensures HoldsKid(ov, moved.records, passed, f, h.1, after)
    ensures Moved(sys, moved, FootKid(sys.records, id, kid), FootKid(moved.records, h.1, after))
  {
    MovedOn(sys, asked, moved, FootKid(sys.records, id, kid), Foot(asked.records, h, kid.remote),
            Foot(moved.records, h, after.remote));
  }

  /** A child that is completed, or whose submission fails, stays where it is. */
  lemma KidNotCalled(data: Data, ov: Overlay, sys: Tables, f: Filter, passed: set<NodeId>, kid: Kid, id: nat,
      maxRows: nat, ce: CallEnv)
    requires sys.Valid() && HoldsKid(ov, sys.records, passed, f, id, kid)
    requires kid.progress.completed || (!kid.progress.submitted && !ce.submitAccepted)
    ensures KidDone(data, ov, sys, f, passed, kid, id, maxRows, ce,
                    CallKid(data, ov, sys, f, passed, BareKid(kid), id, PlanOf(kid.remote), maxRows, ce))
  {
  }

  /** What a fetch call to the opened child does. */
  lemma {:induction false} CallOpened(data: Data, ov: Overlay, asked: Tables, f: Filter, kid: Kid, h: Handle,
      want: nat, fetch: FetchEnv)
    requires asked.Valid() && Holds(ov, asked.records, h, f, kid.remote)
    ensures fetch.ReplyLost? ==>
      FetchDone(data, ov, asked, h, f, kid.remote, want, fetch.lost,
                FetchAt(data, ov, asked, h, PlanOf(kid.remote), want, fetch.lost))
    ensures fetch.Replied? ==>
      FetchDone(data, ov, asked, h, f, kid.remote, want, fetch.env,
                FetchAt(data, ov, asked, h, PlanOf(kid.remote), want, fetch.env))
    decreases kid, 0
  {
    match fetch
    case Undelivered =>
    case ReplyLost(env) => FetchHolds(data, ov, asked, h, f, kid.remote, want, env);
    case Replied(env) => FetchHolds(data, ov, asked, h, f, kid.remote, want, env);
  }

  /** A call that is made, stored and on trees, side by side. */
  lemma KidCalled(data: Data, ov: Overlay, sys: Tables, f: Filter, passed: set<NodeId>, kid: Kid, id: nat,
      maxRows: nat, ce: CallEnv, asked: Tables, h: Handle, m: KidMoved, pulled: (Kid, QueryResult))
    requires !kid.progress.completed && (kid.progress.submitted || ce.submitAccepted)
    requires asked == if kid.progress.submitted then sys else sys.Accept(ov, kid.id, f, passed)
    requires h == (kid.id, if kid.progress.submitted then id else sys.next(kid.id))
    requires m == CallKid(data, ov, sys, f, passed, BareKid(kid), id, PlanOf(kid.remote), maxRows, ce)
    requires pulled == PullKid(data.Shards(f), kid, maxRows, ce)
    requires ce.fetch.Replied? ==>
      FetchAt(data, ov, asked, h, PlanOf(kid.remote), AdaptiveChunk(maxRows, ce.pressure), ce.fetch.env).1
        == Fetch(data.Shards(f), kid.remote, AdaptiveChunk(maxRows, ce.pressure), ce.fetch.env).1
    ensures m.kid == BareKid(pulled.0) && m.result == pulled.1 && m.id == h.1
    ensures pulled.0.id == kid.id && pulled.0.progress.submitted
    ensures var want := AdaptiveChunk(maxRows, ce.pressure);
      match ce.fetch
      case Undelivered => m.sys == asked && pulled.0.remote == kid.remote
      case ReplyLost(env) =>
        && m.sys == FetchAt(data, ov, asked, h, PlanOf(kid.remote), want, env).0
        && pulled.0.remote == Fetch(data.Shards(f), kid.remote, want, env).0
      case Replied(env) =>
        && m.sys == FetchAt(data, ov, asked, h, PlanOf(kid.remote), want, env).0
        && pulled.0.remote == Fetch(data.Shards(f), kid.remote, want, env).0
  {
  }

  lemma {:induction false} CallKidHolds(data: Data, ov: Overlay, sys: Tables, f: Filter, passed: set<NodeId>,
      kid: Kid, id: nat, maxRows: nat, ce: CallEnv)
    requires sys.Valid() && HoldsKid(ov, sys.records, passed, f, id, kid)
    ensures KidDone(data, ov, sys, f, passed, kid, id, maxRows, ce,
                    CallKid(data, ov, sys, f, passed, BareKid(kid), id, PlanOf(kid.remote), maxRows, ce))
    decreases kid, 1
  {
    if kid.progress.completed || (!kid.progress.submitted && !ce.submitAccepted) {
      KidNotCalled(data, ov, sys, f, passed, kid, id, maxRows, ce);
    } else {
      var asked := if kid.progress.submitted then sys else sys.Accept(ov, kid.id, f, passed);
      var h := (kid.id, if kid.progress.submitted then id else sys.next(kid.id));
      var m := CallKid(data, ov, sys, f, passed, BareKid(kid), id, PlanOf(kid.remote), maxRows, ce);
      var after := PullKid(data.Shards(f), kid, maxRows, ce).0;
      OpenHolds(ov, sys, f, passed, kid, id);
      CallOpened(data, ov, asked, f, kid, h, AdaptiveChunk(maxRows, ce.pressure), ce.fetch);
      KidCalled(data, ov, sys, f, passed, kid, id, maxRows, ce, asked, h, m, PullKid(data.Shards(f), kid, maxRows, ce));
      KidFetched(ov, sys, asked, m.sys, f, passed, kid, id, h, after);
    }
  }

  /** Two moves one after the other, of separate parts. */
  lemma MovedTwice(sys: Tables, sys1: Tables, sys2: Tables, a: set<Handle>, a1: set<Handle>, b: set<Handle>,
      b2: set<Handle>)
    requires Moved(sys, sys1, a, a1) && Moved(sys1, sys2, b, b2)
    requires a !! b && b <= sys.records.Keys && a1 <= sys1.records.Keys
    ensures Moved(sys, sys2, a + b, a1 + b2) && a1 !! b2 && a1 !! b
    ensures Agree(sys1.records, sys2.records, a1)
  {
  }

  /** The children before the last, and the last, after their turns. */
  lemma KidsJoined(ov: Overlay, sys1: Tables, sys2: Tables, passed: set<NodeId>, f: Filter, ids: seq<nat>,
      kids: seq<Kid>, id: nat, kid: Kid)
    requires HoldsKids(ov, sys1.records, passed, f, ids, kids)
      && Agree(sys1.records, sys2.records, FootKids(sys1.records, ids, kids))
    requires HoldsKid(ov, sys2.records, passed, f, id, kid)
      && FootKids(sys1.records, ids, kids) !! FootKid(sys2.records, id, kid)
    ensures HoldsKids(ov, sys2.records, passed, f, ids + [id], kids + [kid])
    ensures FootKids(sys2.records, ids + [id], kids + [kid])
      == FootKids(sys1.records, ids, kids) + FootKid(sys2.records, id, kid)
  {
    FrameKids(ov, sys1.records, sys2.records, passed, f, ids, kids);
    HoldsKidsAppend(ov, sys2.records, passed, f, ids, kids, id, kid);
  }

  /** What the turns of some children come to. */
  ghost predicate KidsDone(data: Data, ov: Overlay, sys: Tables, f: Filter, passed: set<NodeId>, kids: seq<Kid>,
      ids: seq<nat>, maxRows: nat, calls: seq<CallEnv>, m: KidsMoved) {
    var (after, gathered) := PullKids(data.Shards(f), kids, maxRows, calls);
    && m.kids == BareKids(after) && m.result == gathered && HoldsKids(ov, m.sys.records, passed, f, m.ids, after)
    && Moved(sys, m.sys, FootKids(sys.records, ids, kids), FootKids(m.sys.records, m.ids, after))
  }

  ghost predicate KidDone(data: Data, ov: Overlay, sys: Tables, f: Filter, passed: set<NodeId>, kid: Kid, id: nat,
      maxRows: nat, ce: CallEnv, m: KidMoved) {
    var (after, result) := PullKid(data.Shards(f), kid, maxRows, ce);
    && m.kid == BareKid(after) && m.result == result && HoldsKid(ov, m.sys.records, passed, f, m.id, after)
    && Moved(sys, m.sys, FootKid(sys.records, id, kid), FootKid(m.sys.records, m.id, after))
  }

  lemma LastKidDone(data: Data, ov: Overlay, sys: Tables, f: Filter, passed: set<NodeId>, kids: seq<Kid>,
      ids: seq<nat>, maxRows: nat, calls: seq<CallEnv>, m: KidsMoved, last: KidMoved)
    requires kids != [] && HoldsKids(ov, sys.records, passed, f, ids, kids)
    requires KidsDone(data, ov, sys, f, passed, kids[..|kids| - 1], ids[..|kids| - 1], maxRows, calls, m)
    requires FootKid(m.sys.records, ids[|kids| - 1], kids[|kids| - 1])
      == FootKid(sys.records, ids[|kids| - 1], kids[|kids| - 1])
    requires KidDone(data, ov, m.sys, f, passed, kids[|kids| - 1], ids[|kids| - 1], maxRows,
      CallAt(calls, |kids| - 1), last)
    ensures KidsDone(data, ov, sys, f, passed, kids, ids, maxRows, calls,
                     KidsMoved(last.sys, m.kids + [last.kid], m.ids + [last.id], m.result.Merge(last.result)))
  {
    var k := |kids| - 1;
    var after := PullKids(data.Shards(f), kids[..k], maxRows, calls).0;
    var lastAfter := PullKid(data.Shards(f), kids[k], maxRows, CallAt(calls, k)).0;
    FootKidWithin(ov, sys.records, passed, f, ids[k], kids[k]);
    FootKidsWithin(ov, m.sys.records, passed, f, m.ids, after);
    MovedTwice(sys, m.sys, last.sys, FootKids(sys.records, ids[..k], kids[..k]), FootKids(m.sys.records, m.ids, after),
               FootKid(sys.records, ids[k], kids[k]), FootKid(last.sys.records, last.id, lastAfter));
    KidsJoined(ov, m.sys, last.sys, passed, f, m.ids, after, last.id, lastAfter);
    BareKidsAppend(after, lastAfter);
  }

  lemma BareKidsAppend(kids: seq<Kid>, kid: Kid)
    ensures BareKids(kids + [kid]) == BareKids(kids) + [BareKid(kid)]
  {
    assert (kids + [kid])[..|kids|] == kids;
  }

  lemma Prefixes(kids: seq<Kid>, k: nat)
    requires k + 1 == |kids|
    ensures BareKids(kids)[..k] == BareKids(kids[..k]) && PlansOf(kids)[..k] == PlansOf(kids[..k])
  {
    assert BareKids(kids) == BareKids(kids[..k]) + [BareKid(kids[k])];
    assert PlansOf(kids) == PlansOf(kids[..k]) + [PlanOf(kids[k].remote)];
  }

  lemma CallKidsUnfolds(data: Data, ov: Overlay, sys: Tables, f: Filter, passed: set<NodeId>, kids: seq<Kid>,
      ids: seq<nat>, maxRows: nat, calls: seq<CallEnv>)
    requires kids != [] && |ids| == |kids|
    ensures var k := |kids| - 1;
      var m := CallKids(data, ov, sys, f, passed, BareKids(kids[..k]), ids[..k], PlansOf(kids[..k]), maxRows, calls);
      var last := CallKid(data, ov, m.sys, f, passed, BareKid(kids[k]), ids[k], PlanOf(kids[k].remote), maxRows,
          CallAt(calls, k));
      CallKids(data, ov, sys, f, passed, BareKids(kids), ids, PlansOf(kids), maxRows, calls)
        == KidsMoved(last.sys, m.kids + [last.kid], m.ids + [last.id], m.result.Merge(last.result))
  {
    Prefixes(kids, |kids| - 1);
  }

  lemma {:induction false} CallKidsHold(data: Data, ov: Overlay, sys: Tables, f: Filter, passed: set<NodeId>,
      kids: seq<Kid>, ids: seq<nat>, maxRows: nat, calls: seq<CallEnv>)
    requires sys.Valid() && HoldsKids(ov, sys.records, passed, f, ids, kids)
    ensures KidsDone(data, ov, sys, f, passed, kids, ids, maxRows, calls,
                     CallKids(data, ov, sys, f, passed, BareKids(kids), ids, PlansOf(kids), maxRows, calls))
    decreases kids
  {
    if kids != [] {
      var k := |kids| - 1;
      CallKidsHold(data, ov, sys, f, passed, kids[..k], ids[..k], maxRows, calls);
      var m := CallKids(data, ov, sys, f, passed, BareKids(kids[..k]), ids[..k], PlansOf(kids[..k]), maxRows, calls);
      FootKidWithin(ov, sys.records, passed, f, ids[k], kids[k]);
      FrameKid(ov, sys.records, m.sys.records, passed, f, ids[k], kids[k]);
      CallKidHolds(data, ov, m.sys, f, passed, kids[k], ids[k], maxRows, CallAt(calls, k));
      var last := CallKid(data, ov, m.sys, f, passed, BareKid(kids[k]), ids[k], PlanOf(kids[k].remote), maxRows,
          CallAt(calls, k));
      LastKidDone(data, ov, sys, f, passed, kids, ids, maxRows, calls, m, last);
      CallKidsUnfolds(data, ov, sys, f, passed, kids, ids, maxRows, calls);
    }
  }

  /** Writing the record back completes a move of the parts below it. */
  lemma PutHolds(ov: Overlay, sys: Tables, below: Tables, h: Handle, f: Filter, req: Req, req': Req, ids: seq<nat>)
    requires sys.Valid() && Holds(ov, sys.records, h, f, req) && req'.node == req.node
    requires Moved(sys, below, FootKids(sys.records, sys.records[h].ids, req.kids),
      FootKids(below.records, ids, req'.kids))
    requires HoldsKids(ov, below.records, PassedOn(ov, h.0, sys.records[h].visited), f, ids, req'.kids)
    ensures var after := below.Put(h, sys.records[h].(body := Bare(req'), ids := ids));
      && Holds(ov, after.records, h, f, req')
          && Moved(sys, after, Foot(sys.records, h, req), Foot(after.records, h, req'))
  {
    var after := below.Put(h, sys.records[h].(body := Bare(req'), ids := ids));
    assert h !in FootKids(below.records, ids, req'.kids);
    FrameKids(ov, below.records, after.records, PassedOn(ov, h.0, sys.records[h].visited), f, ids, req'.kids);
  }

  ghost predicate FetchDone(data: Data, ov: Overlay, sys: Tables, h: Handle, f: Filter, req: Req, maxRows: nat,
      env: Env, done: (Tables, Reply)) {
    var (req', reply) := Fetch(data.Shards(f), req, maxRows, env);
    && done.1 == reply && Holds(ov, done.0.records, h, f, req')
    && Moved(sys, done.0, Foot(sys.records, h, req), Foot(done.0.records, h, req'))
  }

  lemma FetchAtUnfolds(data: Data, ov: Overlay, sys: Tables, h: Handle, p: Plan, maxRows: nat, env: Env,
      below: KidsMoved)
    requires h in sys.records && |sys.records[h].body.kids| == |sys.records[h].ids| == |p.kids|
    requires env.interrupt.NoInterrupt? && Refills(sys.records[h].body)
    requires var r := sys.records[h];
      below == CallKids(data, ov, sys, r.filter, PassedOn(ov, h.0, r.visited), r.body.kids, r.ids, p.kids,
                        AdaptiveChunk(maxRows, env.pressure), env.calls)
    ensures var r, limit := sys.records[h], AdaptiveChunk(maxRows, env.pressure);
      var here := PullLocal(data.Shards(r.filter), r.body.node, r.body.local, limit, env.localPressure);
      var served := Serve(Filled(r.body, here, (below.kids, below.result)), limit);
      FetchAt(data, ov, sys, h, p, maxRows, env) == (below.sys.Put(h, r.(body := served.0, ids := below.ids)), served.1)
  {
  }

  /** The stored form of a refill. */
  lemma FetchAtRefills(data: Data, ov: Overlay, sys: Tables, h: Handle, req: Req, maxRows: nat, env: Env,
      below: KidsMoved)
    requires h in sys.records && sys.records[h].body == Bare(req) && |sys.records[h].ids| == |req.kids|
    requires env.interrupt.NoInterrupt? && Refills(req)
    requires var (r, limit) := (sys.records[h], AdaptiveChunk(maxRows, env.pressure));
      && below == CallKids(data, ov, sys, r.filter, PassedOn(ov, h.0, r.visited), BareKids(req.kids), r.ids,
          PlansOf(req.kids),
                           limit, env.calls)
      && below.kids == BareKids(PullKids(data.Shards(r.filter), req.kids, limit, env.calls).0)
      && below.result == PullKids(data.Shards(r.filter), req.kids, limit, env.calls).1
    ensures var (req', reply) := Fetch(data.Shards(sys.records[h].filter), req, maxRows, env);
      FetchAt(data, ov, sys, h, PlanOf(req), maxRows, env)
        == (below.sys.Put(h, sys.records[h].(body := Bare(req'), ids := below.ids)), reply)
  {
    var r, limit := sys.records[h], AdaptiveChunk(maxRows, env.pressure);
    var here := PullLocal(data.Shards(r.filter), req.node, req.local, limit, env.localPressure);
    var pulled := PullKids(data.Shards(r.filter), req.kids, limit, env.calls);
    BareAll(req);
    FetchRefills(data.Shards(r.filter), req, maxRows, env);
    FilledBare(req, here, pulled);
    ServeBare(Filled(req, here, pulled), limit);
    FetchAtUnfolds(data, ov, sys, h, PlanOf(req), maxRows, env, below);
  }

  /** The stored form of a fetch that only serves, or is stopped. */
  lemma FetchAtServes(data: Data, ov: Overlay, sys: Tables, h: Handle, req: Req, maxRows: nat, env: Env)
    requires h in sys.records && sys.records[h].body == Bare(req) && |sys.records[h].ids| == |req.kids|
    requires !(env.interrupt.NoInterrupt? && Refills(req))
    ensures var (req', reply) := Fetch(data.Shards(sys.records[h].filter), req, maxRows, env);
      FetchAt(data, ov, sys, h, PlanOf(req), maxRows, env) == (sys.Put(h, sys.records[h].(body := Bare(req'))), reply)
  {
    BareAll(req);
    ServeBare(req, AdaptiveChunk(maxRows, env.pressure));
    assert Stopped(req) && env.interrupt.NoInterrupt? ==>
        sys.records[h := sys.records[h].(body := Bare(req))] == sys.records;
  }

  /** One fetch at one node, with all nested calls to other nodes, does to the tree of requests what the protocol
      says. */
  lemma {:induction false} FetchHolds(data: Data, ov: Overlay, sys: Tables, h: Handle, f: Filter, req: Req,
      maxRows: nat, env: Env)
    requires sys.Valid() && Holds(ov, sys.records, h, f, req)
    ensures FetchDone(data, ov, sys, h, f, req, maxRows, env, FetchAt(data, ov, sys, h, PlanOf(req), maxRows, env))
    decreases req, 1
  {
    var r, sh := sys.records[h], data.Shards(f);
    var req' := Fetch(sh, req, maxRows, env).0;
    FetchMoves(sh, req, maxRows, env);
    if env.interrupt.NoInterrupt? && Refills(req) {
      var limit, passed := AdaptiveChunk(maxRows, env.pressure), PassedOn(ov, h.0, r.visited);
      CallKidsHold(data, ov, sys, f, passed, req.kids, r.ids, limit, env.calls);
      var below := CallKids(data, ov, sys, f, passed, BareKids(req.kids), r.ids, PlansOf(req.kids), limit, env.calls);
      FetchAtRefills(data, ov, sys, h, req, maxRows, env, below);
      PutHolds(ov, sys, below.sys, h, f, req, req', below.ids);
    } else {
      FetchAtServes(data, ov, sys, h, req, maxRows, env);
      PutHolds(ov, sys, sys, h, f, req, req', r.ids);
    }
  }
}
