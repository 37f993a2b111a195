/** Repeated fetching always reaches `done`: a measure over the whole tree of
    requests falls with every fetch that does not report it, whatever calls fail. */
module ProtocolTermination {
  import opened Results
  import opened ChunkSizing
  import opened Forwarding
  import opened Protocol
  import opened ProtocolInvariants

  /** Unread rows, two per unscanned row, one per open worker, and twice the work of every open child. */
  function Work(sh: Shards, req: Req): nat
    decreases req, 1
  {
    Unread(req) + WorkBelow(sh, req)
  }

  function WorkBelow(sh: Shards, req: Req): nat
    decreases req, 0
  {
    LocalWork(|sh(req.node)|, req.local) + WorkAll(sh, req.kids)
  }

  function LocalWork(rows: nat, local: Progress): nat {
    (if local.completed then 0 else 1) + 2 * (if local.nextStartRow <= rows then rows - local.nextStartRow else 0)
  }

  function WorkAll(sh: Shards, kids: seq<Kid>): nat
    decreases kids
  {
    if kids == [] then 0 else WorkAll(sh, kids[..|kids| - 1]) + KidWork(sh, kids[|kids| - 1])
  }

  function KidWork(sh: Shards, kid: Kid): nat
    decreases kid
  {
    if kid.progress.completed then 0 else 1 + 2 * Work(sh, kid.remote)
  }

  lemma PullLocalWorks(sh: Shards, node: NodeId, local: Progress, maxRows: nat, pressure: real)
    requires local.nextStartRow <= |sh(node)|
    requires local.completed ==> local.nextStartRow == |sh(node)|
    ensures var (after, own) := PullLocal(sh, node, local, maxRows, pressure);
      && LocalWork(|sh(node)|, after) + |own.trips| <= LocalWork(|sh(node)|, local)
      && (!local.completed ==> LocalWork(|sh(node)|, after) + |own.trips| < LocalWork(|sh(node)|, local))
  {
    PullLocalKeeps(sh, node, local, maxRows, pressure);
  }

  lemma {:induction false} PullKidWorks(sh: Shards, kid: Kid, maxRows: nat, ce: CallEnv)
    requires WellFormed(sh, kid.remote)
    ensures var (after, partial) := PullKid(sh, kid, maxRows, ce);
      && KidWork(sh, after) + |partial.trips| <= KidWork(sh, kid)
      && (!kid.progress.completed ==> KidWork(sh, after) + |partial.trips| < KidWork(sh, kid))
    decreases kid
  {
    match ce.fetch
    case Undelivered =>
    case ReplyLost(env) =>
    case Replied(env) => FetchWorks(sh, kid.remote, AdaptiveChunk(maxRows, ce.pressure), env);
  }

  lemma {:induction false} PullKidsWork(sh: Shards, kids: seq<Kid>, maxRows: nat, calls: seq<CallEnv>)
    requires AllWellFormed(sh, kids)
    ensures var (after, gathered) := PullKids(sh, kids, maxRows, calls);
      && WorkAll(sh, after) + |gathered.trips| <= WorkAll(sh, kids)
      && (!AllKidsCompleted(kids) ==> WorkAll(sh, after) + |gathered.trips| < WorkAll(sh, kids))
    decreases kids
  {
    if kids != [] {
      var k := |kids| - 1;
      var before := PullKids(sh, kids[..k], maxRows, calls).0;
      var last := PullKid(sh, kids[k], maxRows, CallAt(calls, k)).0;
      PullKidsWork(sh, kids[..k], maxRows, calls);
      PullKidWorks(sh, kids[k], maxRows, CallAt(calls, k));
      assert (before + [last])[..k] == before;
      assert AllKidsCompleted(kids) <==> AllKidsCompleted(kids[..k]) && kids[k].progress.completed;
    }
  }

  lemma {:induction false} PullWorks(sh: Shards, req: Req, maxRows: nat, env: Env)
    requires WellFormed(sh, req) && WindowRead(req) && !AllCompleted(req) && maxRows > 0
    ensures Work(sh, Pull(sh, req, maxRows, env)) < Work(sh, req)
    decreases req, 0
  {
    PullLocalWorks(sh, req.node, req.local, maxRows, env.localPressure);
    PullKidsWork(sh, req.kids, maxRows, env.calls);
    var here := PullLocal(sh, req.node, req.local, maxRows, env.localPressure);
    var below := PullKids(sh, req.kids, maxRows, env.calls);
    FilledWork(sh, req, here, below);
  }

  lemma FilledWork(sh: Shards, req: Req, here: (Progress, QueryResult), below: (seq<Kid>, QueryResult))
    requires WindowRead(req)
    ensures Work(sh, Filled(req, here, below))
      == LocalWork(|sh(req.node)|, here.0) + |here.1.trips| + WorkAll(sh, below.0) + |below.1.trips|
  {
  }

  lemma ServeWorks(sh: Shards, req: Req, limit: nat)
    requires WellFormed(sh, req) && limit > 0
    ensures var (next, reply) := Serve(req, limit);
      && Work(sh, next) + |reply.trips| == Work(sh, req)
      && (!WindowRead(req) ==> |reply.trips| > 0)
      && (WindowRead(req) && AllCompleted(req) ==> reply.done)
  {
    var (next, reply) := Serve(req, limit);
    ServeKeeps(sh, req, limit);
    assert WorkBelow(sh, next) == WorkBelow(sh, req) by {
      assert next.node == req.node && next.local == req.local && next.kids == req.kids;
    }
  }

  /** A fetch pays for every row it hands out, and pays something even when it hands out none, unless it says `done`. */
  lemma {:induction false} FetchWorks(sh: Shards, req: Req, maxRows: nat, env: Env)
    requires WellFormed(sh, req)
    ensures var (next, reply) := Fetch(sh, req, maxRows, env);
      && Work(sh, next) + |reply.trips| <= Work(sh, req)
      && (!reply.done ==> Work(sh, next) < Work(sh, req))
    decreases req, 1
  {
    if env.interrupt.NoInterrupt? && !Stopped(req) {
      var limit := AdaptiveChunk(maxRows, env.pressure);
      if WindowRead(req) && !AllCompleted(req) {
        PullKeeps(sh, req, limit, env);
        PullWorks(sh, req, limit, env);
        ServeWorks(sh, Pull(sh, req, limit, env), limit);
      } else {
        ServeWorks(sh, req, limit);
      }
    } else {
      assert WorkBelow(sh, Fetch(sh, req, maxRows, env).0) == WorkBelow(sh, req);
    }
  }

  lemma {:induction false} WorkRunsOut(sh: Shards, req: Req, calls: seq<Call>)
    requires WellFormed(sh, req)
    requires forall i :: 0 <= i < |calls| ==> !Run(sh, req, calls).replies[i].done
    ensures Work(sh, Run(sh, req, calls).req) + |calls| <= Work(sh, req)
  {
    if calls != [] {
      var k := |calls| - 1;
      assert forall i :: 0 <= i < k ==> Run(sh, req, calls).replies[i] == Run(sh, req, calls[..k]).replies[i];
      WorkRunsOut(sh, req, calls[..k]);
      RunKeeps(sh, req, calls[..k]);
      FetchWorks(sh, Run(sh, req, calls[..k]).req, calls[k].maxRows, calls[k].env);
      assert !Run(sh, req, calls).replies[k].done;
    }
  }

  /** Every client that keeps fetching gets a reply with `done`, after at most
      as many fetches as the initial measure, under any failures, loads and row limits. */
  lemma {:induction false} FetchingReachesDone(sh: Shards, p: Plan, calls: seq<Call>)
    requires |calls| > Work(sh, Start(p))
    ensures exists i :: 0 <= i < |calls| && Run(sh, Start(p), calls).replies[i].done
  {
    StartIsWellFormed(sh, p);
    if forall i :: 0 <= i < |calls| ==> !Run(sh, Start(p), calls).replies[i].done {
      WorkRunsOut(sh, Start(p), calls);
    }
  }
}
