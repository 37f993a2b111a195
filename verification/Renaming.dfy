/** The protocol does not look at node names: renaming the nodes of a request tree renames the
    labels of what it delivers and changes nothing else. */
module Renaming {
  import opened Results
  import opened LocalScan
  import opened ChunkSizing
  import opened Forwarding
  import opened Protocol

  type Names = NodeId -> NodeId

  /** The shards as the nodes with the old names see them. */
  function Behind(sh: Shards, f: Names): Shards {
    n => sh(f(n))
  }

  function RenameIds(f: Names, ids: seq<NodeId>): (r: seq<NodeId>)
    ensures |r| == |ids| && forall i :: 0 <= i < |ids| ==> r[i] == f(ids[i])
  {
    seq(|ids|, i requires 0 <= i < |ids| => f(ids[i]))
  }

  function RenameRefs(f: Names, refs: seq<RowRef>): (r: seq<RowRef>)
    ensures |r| == |refs| && forall i :: 0 <= i < |refs| ==> r[i] == RowRef(f(refs[i].nodeId), refs[i].localRowId)
  {
    seq(|refs|, i requires 0 <= i < |refs| => RowRef(f(refs[i].nodeId), refs[i].localRowId))
  }

  function RenameResult(f: Names, q: QueryResult): QueryResult {
    q.(matchedRows := RenameRefs(f, q.matchedRows), sources := RenameIds(f, q.sources))
  }

  function RenameReq(f: Names, req: Req): Req
    decreases req
  {
    Req(f(req.node), req.phase, RenameResult(f, req.agg), req.cursor, req.round, req.local, RenameKids(f, req.kids))
  }

  function RenameKid(f: Names, kid: Kid): Kid
    decreases kid
  {
    Kid(f(kid.id), kid.progress, RenameReq(f, kid.remote))
  }

  function RenameKids(f: Names, kids: seq<Kid>): (r: seq<Kid>)
    ensures |r| == |kids| && forall i :: 0 <= i < |kids| ==> r[i] == RenameKid(f, kids[i])
    decreases kids
  {
    if kids == [] then [] else RenameKids(f, kids[..|kids| - 1]) + [RenameKid(f, kids[|kids| - 1])]
  }

  function RenameReply(f: Names, reply: Reply): Reply {
    reply.(sources := RenameIds(f, reply.sources))
  }

  function RenameReplies(f: Names, replies: seq<Reply>): (r: seq<Reply>)
    ensures |r| == |replies| && forall i :: 0 <= i < |replies| ==> r[i] == RenameReply(f, replies[i])
  {
    seq(|replies|, i requires 0 <= i < |replies| => RenameReply(f, replies[i]))
  }

  // ----- results

  lemma MergeRenames(f: Names, q: QueryResult, r: QueryResult)
    ensures RenameResult(f, q.Merge(r)) == RenameResult(f, q).Merge(RenameResult(f, r))
  {
    assert RenameIds(f, q.sources + r.sources) == RenameIds(f, q.sources) + RenameIds(f, r.sources);
    assert RenameRefs(f, q.matchedRows + r.matchedRows) == RenameRefs(f, q.matchedRows) + RenameRefs(f, r.matchedRows);
  }

  lemma EmptyRenames(f: Names)
    ensures RenameResult(f, EMPTY_RESULT) == EMPTY_RESULT
  {
    assert RenameIds(f, []) == [] && RenameRefs(f, []) == [];
  }

  lemma ClearedRenames(f: Names, q: QueryResult)
    ensures RenameResult(f, q.Cleared()) == RenameResult(f, q).Cleared()
  {
    assert RenameIds(f, []) == [] && RenameRefs(f, []) == [];
  }

  lemma RepeatRenames(f: Names, n: NodeId, k: nat)
    ensures RenameIds(f, Repeat(n, k)) == Repeat(f(n), k)
  {
  }

  lemma PullLocalRenames(f: Names, sh: Shards, node: NodeId, local: Progress, maxRows: nat, pressure: real)
    ensures var (after, own) := PullLocal(Behind(sh, f), node, local, maxRows, pressure);
      PullLocal(sh, f(node), local, maxRows, pressure) == (after, RenameResult(f, own))
  {
    EmptyRenames(f);
    if !local.completed {
      var c := ScanFrom(sh(f(node)), local.nextStartRow, AdaptiveChunk(maxRows, pressure), SCAN_ROW_BUDGET);
      RepeatRenames(f, node, |c.trips|);
      assert RenameRefs(f, RowRefs(node, c.ids)) == RowRefs(f(node), c.ids);
    }
  }

  lemma RemoteResultRenames(f: Names, child: NodeId, reply: Reply)
    ensures RemoteResult(f(child), RenameReply(f, reply)) == RenameResult(f, RemoteResult(child, reply))
  {
    RepeatRenames(f, child, |reply.trips|);
    assert RenameRefs(f, []) == [];
  }

  // ----- one fetch

  lemma {:induction false} PullKidRenames(f: Names, sh: Shards, kid: Kid, maxRows: nat, ce: CallEnv)
    ensures var (after, partial) := PullKid(Behind(sh, f), kid, maxRows, ce);
      PullKid(sh, RenameKid(f, kid), maxRows, ce) == (RenameKid(f, after), RenameResult(f, partial))
    decreases kid
  {
    EmptyRenames(f);
    var want := AdaptiveChunk(maxRows, ce.pressure);
    match ce.fetch
    case Undelivered =>
    case ReplyLost(env) => FetchRenames(f, sh, kid.remote, want, env);
    case Replied(env) =>
      FetchRenames(f, sh, kid.remote, want, env);
      RemoteResultRenames(f, kid.id, Fetch(Behind(sh, f), kid.remote, want, env).1);
  }

  lemma RenameKidsAppend(f: Names, kids: seq<Kid>, kid: Kid)
    ensures RenameKids(f, kids + [kid]) == RenameKids(f, kids) + [RenameKid(f, kid)]
  {
    assert (kids + [kid])[..|kids|] == kids;
  }

  lemma {:induction false} PullKidsRename(f: Names, sh: Shards, kids: seq<Kid>, maxRows: nat, calls: seq<CallEnv>)
    ensures var (after, gathered) := PullKids(Behind(sh, f), kids, maxRows, calls);
      PullKids(sh, RenameKids(f, kids), maxRows, calls) == (RenameKids(f, after), RenameResult(f, gathered))
    decreases kids
  {
    EmptyRenames(f);
    if kids != [] {
      var k := |kids| - 1;
      PullKidsRename(f, sh, kids[..k], maxRows, calls);
      PullKidRenames(f, sh, kids[k], maxRows, CallAt(calls, k));
      var (before, partial) := PullKids(Behind(sh, f), kids[..k], maxRows, calls);
      var (last, lastResult) := PullKid(Behind(sh, f), kids[k], maxRows, CallAt(calls, k));
      assert RenameKids(f, kids)[..k] == RenameKids(f, kids[..k]);
      RenameKidsAppend(f, before, last);
      MergeRenames(f, partial, lastResult);
    }
  }

  lemma AllCompletedRenames(f: Names, req: Req)
    ensures AllCompleted(RenameReq(f, req)) <==> AllCompleted(req)
    ensures WindowRead(RenameReq(f, req)) <==> WindowRead(req)
  {
    if AllKidsCompleted(RenameKids(f, req.kids)) {
      forall i | 0 <= i < |req.kids| ensures req.kids[i].progress.completed {
        assert RenameKids(f, req.kids)[i].progress.completed;
      }
    }
  }

  lemma FilledAggRenames(f: Names, req: Req, own: QueryResult, gathered: QueryResult)
    ensures var (here, below) := ((FRESH_PROGRESS, own), ([], gathered));
      Filled(RenameReq(f, req), (FRESH_PROGRESS, RenameResult(f, own)), ([], RenameResult(f, gathered))).agg
        == RenameResult(f, Filled(req, here, below).agg)
  {
    ClearedRenames(f, req.agg);
    var cleared := if WindowRead(req) then req.agg.Cleared() else req.agg;
    MergeRenames(f, cleared, own);
    MergeRenames(f, cleared, gathered);
    MergeRenames(f, cleared.Merge(own), gathered);
    MergeRenames(f, cleared.Merge(gathered), own);
  }

  lemma FilledRenames(f: Names, req: Req, here: (Progress, QueryResult), below: (seq<Kid>, QueryResult))
    ensures Filled(RenameReq(f, req), (here.0, RenameResult(f, here.1)),
      (RenameKids(f, below.0), RenameResult(f, below.1)))
         == RenameReq(f, Filled(req, here, below))
  {
    FilledAggRenames(f, req, here.1, below.1);
    AllCompletedRenames(f, Filled(req, here, below));
  }

  lemma ServeRenames(f: Names, req: Req, limit: nat)
    ensures Serve(RenameReq(f, req), limit) == (RenameReq(f, Serve(req, limit).0), RenameReply(f, Serve(req, limit).1))
  {
    AllCompletedRenames(f, req);
    if WindowRead(req) {
      assert RenameIds(f, []) == [];
    } else {
      var take := Min(limit, |req.agg.trips| - req.cursor);
      var end := req.cursor + take;
      AllCompletedRenames(f, req.(cursor := end));
      RepeatRenames(f, req.node, take);
      if |req.agg.sources| >= end {
        assert RenameIds(f, req.agg.sources)[req.cursor..end] == RenameIds(f, req.agg.sources[req.cursor..end]);
      }
    }
  }

  lemma {:induction false} FetchRenames(f: Names, sh: Shards, req: Req, maxRows: nat, env: Env)
    ensures var (next, reply) := Fetch(Behind(sh, f), req, maxRows, env);
      Fetch(sh, RenameReq(f, req), maxRows, env) == (RenameReq(f, next), RenameReply(f, reply))
    decreases req, 1
  {
    assert RenameIds(f, []) == [];
    AllCompletedRenames(f, req);
    if env.interrupt.NoInterrupt? && !Stopped(req) {
      var limit := AdaptiveChunk(maxRows, env.pressure);
      if Refills(req) {
        PullLocalRenames(f, sh, req.node, req.local, limit, env.localPressure);
        PullKidsRename(f, sh, req.kids, limit, env.calls);
        FilledRenames(f, req, PullLocal(Behind(sh, f), req.node, req.local, limit, env.localPressure),
                      PullKids(Behind(sh, f), req.kids, limit, env.calls));
        ServeRenames(f, Pull(Behind(sh, f), req, limit, env), limit);
      } else {
        ServeRenames(f, req, limit);
      }
    }
  }

  /** Renaming commutes with every run. */
  lemma {:induction false} RunRenames(f: Names, sh: Shards, req: Req, calls: seq<Call>)
    ensures var run := Run(Behind(sh, f), req, calls);
      Run(sh, RenameReq(f, req), calls) == Outcome(RenameReq(f, run.req), RenameReplies(f, run.replies))
  {
    if calls != [] {
      var k := |calls| - 1;
      RunRenames(f, sh, req, calls[..k]);
      var before := Run(Behind(sh, f), req, calls[..k]);
      FetchRenames(f, sh, before.req, calls[k].maxRows, calls[k].env);
      var reply := Fetch(Behind(sh, f), before.req, calls[k].maxRows, calls[k].env).1;
      assert RenameReplies(f, before.replies + [reply]) == RenameReplies(f, before.replies) + [RenameReply(f, reply)];
    } else {
      assert RenameReplies(f, []) == [];
    }
  }

  // ----- runs without failures

  lemma {:induction false} ReliableRenames(f: Names, req: Req, env: Env)
    requires Reliable(RenameReq(f, req), env)
    ensures Reliable(req, env)
    decreases req
  {
    AllCompletedRenames(f, req);
    if Refills(req) {
      forall i | 0 <= i < |req.kids| ensures ReliableCall(req.kids[i], CallAt(env.calls, i)) {
        assert ReliableCall(RenameKids(f, req.kids)[i], CallAt(env.calls, i));
        ReliableCallRenames(f, req.kids[i], CallAt(env.calls, i));
      }
    }
  }

  lemma {:induction false} ReliableCallRenames(f: Names, kid: Kid, ce: CallEnv)
    requires ReliableCall(RenameKid(f, kid), ce)
    ensures ReliableCall(kid, ce)
    decreases kid
  {
    if !kid.progress.completed {
      ReliableRenames(f, kid.remote, ce.fetch.env);
    }
  }

  lemma {:induction false} ReliableRunRenames(f: Names, sh: Shards, req: Req, calls: seq<Call>)
    requires ReliableRun(sh, RenameReq(f, req), calls)
    ensures ReliableRun(Behind(sh, f), req, calls)
  {
    if calls != [] {
      var k := |calls| - 1;
      ReliableRunRenames(f, sh, req, calls[..k]);
      RunRenames(f, sh, req, calls[..k]);
      ReliableRenames(f, Run(Behind(sh, f), req, calls[..k]).req, calls[k].env);
    }
  }

  // ----- what is delivered

  function RenameRows(f: Names, rows: Labelled): (r: Labelled)
    ensures |r| == |rows| && forall i :: 0 <= i < |rows| ==> r[i] == (f(rows[i].0), rows[i].1)
  {
    seq(|rows|, i requires 0 <= i < |rows| => (f(rows[i].0), rows[i].1))
  }

  lemma {:induction false} DeliveredRenames(f: Names, replies: seq<Reply>)
    ensures Delivered(RenameReplies(f, replies)) == RenameRows(f, Delivered(replies))
  {
    if replies != [] {
      var k := |replies| - 1;
      var last := replies[k];
      DeliveredRenames(f, replies[..k]);
      assert RenameReplies(f, replies)[..k] == RenameReplies(f, replies[..k]);
      assert Zip(last.trips, RenameIds(f, last.sources)) == RenameRows(f, Zip(last.trips, last.sources));
    }
  }

  // ----- plans

  function RenamePlan(f: Names, p: Plan): Plan
    decreases p
  {
    Plan(f(p.node), RenamePlans(f, p.kids))
  }

  function RenamePlans(f: Names, ps: seq<Plan>): (r: seq<Plan>)
    ensures |r| == |ps| && forall i :: 0 <= i < |ps| ==> r[i] == RenamePlan(f, ps[i])
    decreases ps
  {
    if ps == [] then [] else RenamePlans(f, ps[..|ps| - 1]) + [RenamePlan(f, ps[|ps| - 1])]
  }

  lemma {:induction false} StartRenames(f: Names, p: Plan)
    ensures RenameReq(f, Start(p)) == Start(RenamePlan(f, p))
    decreases p
  {
    EmptyRenames(f);
    var kids, kids' := RenameKids(f, StartAll(p.kids)), StartAll(RenamePlans(f, p.kids));
    forall i | 0 <= i < |p.kids| ensures kids[i] == kids'[i] {
      StartRenames(f, p.kids[i]);
    }
    assert kids == kids';
  }
}
