/** When a network that does not fail makes a run without failures, and what a
    client that keeps fetching then gets. */
module ProtocolReliability {
  import opened Results
  import opened Graph
  import opened ChunkSizing
  import opened Forwarding
  import opened Protocol
  import opened ProtocolInvariants
  import opened ProtocolTermination

  // ----- the tree of requests never changes its shape

  /** The forwarding tree that a tree of requests was made from. */
  function PlanOf(req: Req): Plan
    decreases req
  {
    Plan(req.node, PlansOf(req.kids))
  }

  function PlansOf(kids: seq<Kid>): (r: seq<Plan>)
    ensures |r| == |kids| && forall i :: 0 <= i < |kids| ==> r[i] == PlanOf(kids[i].remote)
    decreases kids
  {
    if kids == [] then [] else PlansOf(kids[..|kids| - 1]) + [PlanOf(kids[|kids| - 1].remote)]
  }

  lemma {:induction false} StartHasPlan(p: Plan)
    ensures PlanOf(Start(p)) == p
    decreases p
  {
    forall i | 0 <= i < |p.kids| ensures PlanOf(Start(p).kids[i].remote) == p.kids[i] {
      StartHasPlan(p.kids[i]);
    }
    assert PlansOf(Start(p).kids) == p.kids;
  }

  lemma {:induction false} PullKidKeepsPlan(sh: Shards, kid: Kid, maxRows: nat, ce: CallEnv)
    ensures PlanOf(PullKid(sh, kid, maxRows, ce).0.remote) == PlanOf(kid.remote)
    decreases kid
  {
    var want := AdaptiveChunk(maxRows, ce.pressure);
    match ce.fetch
    case Undelivered =>
    case ReplyLost(env) => FetchKeepsPlan(sh, kid.remote, want, env);
    case Replied(env) => FetchKeepsPlan(sh, kid.remote, want, env);
  }

  lemma {:induction false} PullKidsKeepPlans(sh: Shards, kids: seq<Kid>, maxRows: nat, calls: seq<CallEnv>)
    ensures PlansOf(PullKids(sh, kids, maxRows, calls).0) == PlansOf(kids)
    decreases kids
  {
    if kids != [] {
      var k := |kids| - 1;
      PullKidsKeepPlans(sh, kids[..k], maxRows, calls);
      PullKidKeepsPlan(sh, kids[k], maxRows, CallAt(calls, k));
      var before, last := PullKids(sh, kids[..k], maxRows, calls).0, PullKid(sh, kids[k], maxRows, CallAt(calls, k)).0;
      assert (before + [last])[..k] == before;
    }
  }

  lemma {:induction false} FetchKeepsPlan(sh: Shards, req: Req, maxRows: nat, env: Env)
    ensures PlanOf(Fetch(sh, req, maxRows, env).0) == PlanOf(req)
    decreases req, 1
  {
    PullKidsKeepPlans(sh, req.kids, AdaptiveChunk(maxRows, env.pressure), env.calls);
    FetchMoves(sh, req, maxRows, env);
  }

  lemma {:induction false} RunKeepsPlan(sh: Shards, req: Req, calls: seq<Call>)
    ensures PlanOf(Run(sh, req, calls).req) == PlanOf(req)
  {
    if calls != [] {
      var k := |calls| - 1;
      RunKeepsPlan(sh, req, calls[..k]);
      FetchKeepsPlan(sh, Run(sh, req, calls[..k]).req, calls[k].maxRows, calls[k].env);
    }
  }

  // ----- calm networks

  /** Every call that could be made under this plan is accepted and answered, and nothing is interrupted.
      This can be read off the network alone, without the state of any request. */
  ghost predicate Calm(p: Plan, env: Env)
    decreases p, 0
  {
    env.interrupt.NoInterrupt? && |env.calls| >= |p.kids| && forall i :: 0 <= i < |p.kids| ==>
        CalmCall(p.kids[i], env.calls[i])
  }

  ghost predicate CalmCall(p: Plan, ce: CallEnv)
    decreases p, 1
  {
    ce.submitAccepted && ce.fetch.Replied? && Calm(p, ce.fetch.env)
  }

  lemma {:induction false} CalmIsReliable(req: Req, env: Env)
    requires Calm(PlanOf(req), env)
    ensures Reliable(req, env)
    decreases req
  {
    forall i | 0 <= i < |req.kids| ensures ReliableCall(req.kids[i], CallAt(env.calls, i)) {
      CalmCallIsReliable(req.kids[i], env.calls[i]);
    }
  }

  lemma {:induction false} CalmCallIsReliable(kid: Kid, ce: CallEnv)
    requires CalmCall(PlanOf(kid.remote), ce)
    ensures ReliableCall(kid, ce)
    decreases kid
  {
    CalmIsReliable(kid.remote, ce.fetch.env);
  }

  /** Every plan has a calm network. */
  function Quiet(p: Plan): Env
    decreases p, 1
  {
    Env(NoInterrupt, 0.0, 0.0, QuietCalls(p.kids))
  }

  function QuietCalls(ps: seq<Plan>): (r: seq<CallEnv>)
    ensures |r| == |ps| && forall i :: 0 <= i < |ps| ==> r[i] == CallEnv(0.0, true, Replied(Quiet(ps[i])))
    decreases ps, 0
  {
    if ps == [] then []
    else QuietCalls(ps[..|ps| - 1]) + [CallEnv(0.0, true, Replied(Quiet(ps[|ps| - 1])))]
  }

  lemma {:induction false} QuietIsCalm(p: Plan)
    ensures Calm(p, Quiet(p))
    decreases p
  {
    forall i | 0 <= i < |p.kids| ensures CalmCall(p.kids[i], Quiet(p).calls[i]) {
      QuietIsCalm(p.kids[i]);
    }
  }

  // ----- `done`, once and for all

  /** From the first `done` on, every reply is `done`. */
  lemma {:induction false} DoneStays(sh: Shards, req: Req, calls: seq<Call>, i: nat)
    requires WellFormed(sh, req) && i < |calls| && Run(sh, req, calls).replies[i].done
    ensures Over(Run(sh, req, calls).req) && Run(sh, req, calls).replies[|calls| - 1].done
  {
    var k := |calls| - 1;
    var before := Run(sh, req, calls[..k]);
    RunKeeps(sh, req, calls[..k]);
    DoneMeansOver(sh, before.req, calls[k].maxRows, calls[k].env);
    if i < k {
      assert before.replies[i].done;
      DoneStays(sh, req, calls[..k], i);
    }
  }

  /** A client that has fetched more often than the initial measure has `done` in its last reply. */
  lemma LastReplyIsDone(sh: Shards, p: Plan, calls: seq<Call>)
    requires |calls| > Work(sh, Start(p))
    ensures Run(sh, Start(p), calls).replies[|calls| - 1].done
  {
    FetchingReachesDone(sh, p, calls);
    StartIsWellFormed(sh, p);
    var i :| 0 <= i < |calls| && Run(sh, Start(p), calls).replies[i].done;
    DoneStays(sh, Start(p), calls, i);
  }

  // ----- runs without failures exist

  /** A client that only meets its quiet network. */
  function QuietFetches(p: Plan, n: nat): (r: seq<Call>)
    ensures |r| == n
  {
    seq(n, _ => Call(0, Quiet(p)))
  }

  lemma {:induction false} QuietFetchesAreReliable(sh: Shards, p: Plan, n: nat)
    ensures ReliableRun(sh, Start(p), QuietFetches(p, n))
  {
    if n > 0 {
      assert QuietFetches(p, n)[..n - 1] == QuietFetches(p, n - 1);
      QuietFetchesAreReliable(sh, p, n - 1);
      StartHasPlan(p);
      RunKeepsPlan(sh, Start(p), QuietFetches(p, n - 1));
      QuietIsCalm(p);
      CalmIsReliable(Run(sh, Start(p), QuietFetches(p, n - 1)).req, Quiet(p));
    }
  }

  /** For all shards, overlays and entry nodes there is a finished run without failures. */
  lemma {:induction false} FinishedReliableRunExists(sh: Shards, ov: Overlay, entry: NodeId) returns (calls: seq<Call>)
    ensures calls != [] && ReliableRun(sh, Start(ClientPlan(ov, entry)), calls)
    ensures Run(sh, Start(ClientPlan(ov, entry)), calls).replies[|calls| - 1].done
  {
    var p := ClientPlan(ov, entry);
    calls := QuietFetches(p, Work(sh, Start(p)) + 1);
    QuietFetchesAreReliable(sh, p, |calls|);
    LastReplyIsDone(sh, p, calls);
  }
}
