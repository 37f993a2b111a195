/** When the root reports `done` and nothing failed, every reachable node has
    been asked and has scanned its whole shard. */
module ProtocolCoverage {
  import opened Results
  import opened Graph
  import opened ChunkSizing
  import opened Forwarding
  import opened Protocol
  import opened ProtocolInvariants

  /** The request and everything below it was submitted and scanned to the end. */
  ghost predicate Exhausted(sh: Shards, req: Req) {
    && req.local.nextStartRow == |sh(req.node)|
    && forall i :: 0 <= i < |req.kids| ==> req.kids[i].progress.submitted && Exhausted(sh, req.kids[i].remote)
  }

  /** Nothing was stopped, and a child that is marked completed has truly finished. */
  ghost predicate Honest(sh: Shards, req: Req) {
    !Stopped(req) && forall i :: 0 <= i < |req.kids| ==> HonestKid(sh, req.kids[i])
  }

  ghost predicate HonestKid(sh: Shards, kid: Kid) {
    && Honest(sh, kid.remote)
    && (kid.progress.completed ==> kid.progress.submitted && Exhausted(sh, kid.remote))
  }

  ghost predicate AllHonest(sh: Shards, kids: seq<Kid>) {
    forall i :: 0 <= i < |kids| ==> HonestKid(sh, kids[i])
  }

  lemma {:induction false} StartIsHonest(sh: Shards, p: Plan)
    ensures Honest(sh, Start(p))
    decreases p
  {
    forall i | 0 <= i < |p.kids| ensures HonestKid(sh, Start(p).kids[i]) {
      StartIsHonest(sh, p.kids[i]);
    }
  }

  lemma OverAndHonest(sh: Shards, req: Req)
    requires WellFormed(sh, req) && Honest(sh, req) && AllCompleted(req)
    ensures Exhausted(sh, req)
  {
    forall i | 0 <= i < |req.kids| ensures req.kids[i].progress.submitted && Exhausted(sh, req.kids[i].remote) {
      assert HonestKid(sh, req.kids[i]);
    }
  }

  lemma {:induction false} PullKidHonest(sh: Shards, kid: Kid, maxRows: nat, ce: CallEnv)
    requires WellFormed(sh, kid.remote) && HonestKid(sh, kid) && ReliableCall(kid, ce)
    ensures HonestKid(sh, PullKid(sh, kid, maxRows, ce).0)
    decreases kid
  {
    if !kid.progress.completed {
      FetchHonest(sh, kid.remote, AdaptiveChunk(maxRows, ce.pressure), ce.fetch.env);
    }
  }

  lemma {:induction false} PullKidsHonest(sh: Shards, kids: seq<Kid>, maxRows: nat, calls: seq<CallEnv>)
    requires AllWellFormed(sh, kids) && AllHonest(sh, kids)
    requires ReliableCalls(kids, calls)
    ensures AllHonest(sh, PullKids(sh, kids, maxRows, calls).0)
    decreases kids
  {
    if kids != [] {
      var k := |kids| - 1;
      PullKidsHonest(sh, kids[..k], maxRows, calls);
      PullKidHonest(sh, kids[k], maxRows, CallAt(calls, k));
    }
  }

  lemma {:induction false} FetchHonest(sh: Shards, req: Req, maxRows: nat, env: Env)
    requires WellFormed(sh, req) && Honest(sh, req) && Reliable(req, env)
    ensures var (next, reply) := Fetch(sh, req, maxRows, env);
      Honest(sh, next) && (reply.done ==> Exhausted(sh, next))
    decreases req, 1
  {
    FetchKeeps(sh, req, maxRows, env);
    DoneMeansOver(sh, req, maxRows, env);
    FetchStaysLive(sh, req, maxRows, env);
    if WindowRead(req) && !AllCompleted(req) {
      PullKidsHonest(sh, req.kids, AdaptiveChunk(maxRows, env.pressure), env.calls);
    }
    FetchMoves(sh, req, maxRows, env);
    var next := Fetch(sh, req, maxRows, env).0;
    assert Honest(sh, next);
    if AllCompleted(next) {
      OverAndHonest(sh, next);
    }
  }

  lemma {:induction false} RunHonest(sh: Shards, req: Req, calls: seq<Call>)
    requires WellFormed(sh, req) && Honest(sh, req) && ReliableRun(sh, req, calls)
    ensures Honest(sh, Run(sh, req, calls).req)
    ensures calls != [] && Run(sh, req, calls).replies[|calls| - 1].done ==> Exhausted(sh, Run(sh, req, calls).req)
  {
    if calls != [] {
      var k := |calls| - 1;
      RunHonest(sh, req, calls[..k]);
      RunKeeps(sh, req, calls[..k]);
      FetchHonest(sh, Run(sh, req, calls[..k]).req, calls[k].maxRows, calls[k].env);
    }
  }

  /** Coverage: on any finite overlay, once the root reports `done` and no call
      failed, the tree of requests has a request at every reachable node and nowhere else, and
      every one of them was submitted and scanned its shard to the end. */
  lemma {:induction false} DoneMeansEveryReachableNodeScanned(sh: Shards, ov: Overlay, entry: NodeId, calls: seq<Call>)
    requires calls != [] && ReliableRun(sh, Start(ClientPlan(ov, entry)), calls)
    requires Run(sh, Start(ClientPlan(ov, entry)), calls).replies[|calls| - 1].done
    ensures var root := Run(sh, Start(ClientPlan(ov, entry)), calls).req;
      && Exhausted(sh, root)
      && forall s :: Asked(root, s) >= 1 <==> Reaches(ov, entry, s)
  {
    var p := ClientPlan(ov, entry);
    StartIsWellFormed(sh, p);
    StartIsHonest(sh, p);
    RunHonest(sh, Start(p), calls);
    RunKeeps(sh, Start(p), calls);
    var root := Run(sh, Start(p), calls).req;
    forall s ensures Asked(root, s) >= 1 <==> Reaches(ov, entry, s) {
      StartAsks(p, s);
      ForwardingCoversExactlyReachable(ov, entry, s);
    }
  }
}
