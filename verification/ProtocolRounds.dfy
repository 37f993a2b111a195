/** Local and remote work take turns: refills are counted, at every request of the tree, and the order of
    a refilled window follows from the count. */
module ProtocolRounds {
  import opened Results
  import opened ChunkSizing
  import opened Forwarding
  import opened Protocol
  import opened ProtocolInvariants
  import opened ProtocolSizes

  /** A position in a tree of requests: which child, which child of that, and so on. */
  type Position = seq<nat>

  /** The child's side of a call: the state it has and the environment it meets, if the call gets there. */
  datatype Reached = Nobody | Child(req: Req, maxRows: nat, env: Env)

  /** Where the call of a refill to child `i` arrives. */
  function Below(req: Req, maxRows: nat, env: Env, i: nat): Reached {
    if i >= |req.kids| then Nobody
    else
      var kid, ce := req.kids[i], CallAt(env.calls, i);
      var want := AdaptiveChunk(AdaptiveChunk(maxRows, env.pressure), ce.pressure);
      if kid.progress.completed || (!kid.progress.submitted && !ce.submitAccepted) then Nobody
      else
        match ce.fetch
        case Undelivered => Nobody
        case ReplyLost(e) => Child(kid.remote, want, e)
        case Replied(e) => Child(kid.remote, want, e)
  }

  /** How often the request at this position refills its window during one fetch of the root. */
  function RefillsDuring(req: Req, maxRows: nat, env: Env, at: Position): nat
    decreases |at|
  {
    if !env.interrupt.NoInterrupt? || !Refills(req) then 0
    else if at == [] then 1
    else
      match Below(req, maxRows, env, at[0])
      case Nobody => 0
      case Child(kid, want, e) => RefillsDuring(kid, want, e, at[1..])
  }

  /** How often it has done so during a run. */
  function RefillCount(sh: Shards, start: Req, calls: seq<Call>, at: Position): nat {
    if calls == [] then 0
    else
      var k := |calls| - 1;
      RefillCount(sh, start, calls[..k], at)
        + RefillsDuring(Run(sh, start, calls[..k]).req, calls[k].maxRows, calls[k].env, at)
  }

  /** If the request at this position refills during the fetch, its new window holds the children's rows before its own
      when `n` is odd, and its own rows first when `n` is even. */
  ghost predicate WindowOrder(sh: Shards, req: Req, maxRows: nat, env: Env, at: Position, n: nat)
    decreases |at|
  {
    env.interrupt.NoInterrupt? && Refills(req) ==>
      if at == [] then
        var limit := AdaptiveChunk(maxRows, env.pressure);
        var own := PullLocal(sh, req.node, req.local, limit, env.localPressure).1;
        var others := PullKids(sh, req.kids, limit, env.calls).1;
        var window := Fetch(sh, req, maxRows, env).0.agg;
        if n % 2 == 1 then window.trips == others.trips + own.trips && window.sources == others.sources + own.sources
        else window.trips == own.trips + others.trips && window.sources == own.sources + others.sources
      else
        match Below(req, maxRows, env, at[0])
        case Nobody => true
        case Child(kid, want, e) => WindowOrder(sh, kid, want, e, at[1..], n)
  }

  // ----- the counter in the records

  function RoundOf(req: Req, at: Position): nat
    decreases |at|
  {
    if at == [] then req.round
    else if at[0] < |req.kids| then RoundOf(req.kids[at[0]].remote, at[1..])
    else 0
  }

  lemma FilledRound(req: Req, here: (Progress, QueryResult), below: (seq<Kid>, QueryResult))
    ensures Filled(req, here, below).round == req.round + 1
  {
  }

  lemma ServeKeepsRound(req: Req, limit: nat)
    ensures Serve(req, limit).0.round == req.round && Serve(req, limit).0.agg == req.agg
  {
  }

  lemma OwnRound(sh: Shards, req: Req, maxRows: nat, env: Env)
    ensures Fetch(sh, req, maxRows, env).0.round
         == req.round + if env.interrupt.NoInterrupt? && Refills(req) then 1 else 0
  {
    if env.interrupt.NoInterrupt? && !Stopped(req) {
      var limit := AdaptiveChunk(maxRows, env.pressure);
      if Refills(req) {
        var here := PullLocal(sh, req.node, req.local, limit, env.localPressure);
        var below := PullKids(sh, req.kids, limit, env.calls);
        FetchRefills(sh, req, maxRows, env);
        FilledRound(req, here, below);
        ServeKeepsRound(Filled(req, here, below), limit);
      } else {
        ServeKeepsRound(req, limit);
      }
    }
  }

  /** Where the call to a child arrives, the child makes that fetch; elsewhere it stays. */
  lemma ChildState(sh: Shards, req: Req, maxRows: nat, env: Env, i: nat)
    requires i < |req.kids|
    ensures var next := Fetch(sh, req, maxRows, env).0;
      i < |next.kids| && next.kids[i].remote ==
        if !env.interrupt.NoInterrupt? || !Refills(req) then req.kids[i].remote
        else
          match Below(req, maxRows, env, i)
          case Nobody => req.kids[i].remote
          case Child(kid, want, e) => Fetch(sh, kid, want, e).0
  {
    FetchMoves(sh, req, maxRows, env);
    if env.interrupt.NoInterrupt? && Refills(req) {
      EveryChildHasItsTurn(sh, req.kids, AdaptiveChunk(maxRows, env.pressure), env.calls, i);
    }
  }

  /** Every refill, and nothing else, advances the counter, by one. */
  lemma {:induction false} FetchCounts(sh: Shards, req: Req, maxRows: nat, env: Env, at: Position)
    ensures RoundOf(Fetch(sh, req, maxRows, env).0, at) == RoundOf(req, at) + RefillsDuring(req, maxRows, env, at)
    decreases |at|
  {
    if at == [] {
      OwnRound(sh, req, maxRows, env);
    } else {
      FetchMoves(sh, req, maxRows, env);
      if at[0] < |req.kids| {
        ChildState(sh, req, maxRows, env, at[0]);
        match Below(req, maxRows, env, at[0])
        case Nobody =>
        case Child(kid, want, e) => FetchCounts(sh, kid, want, e, at[1..]);
      }
    }
  }

  lemma {:induction false} StartsAtZero(p: Plan, at: Position)
    ensures RoundOf(Start(p), at) == 0
    decreases |at|
  {
    if at != [] && at[0] < |p.kids| {
      StartsAtZero(p.kids[at[0]], at[1..]);
    }
  }

  lemma {:induction false} RoundIsCount(sh: Shards, p: Plan, calls: seq<Call>, at: Position)
    ensures RoundOf(Run(sh, Start(p), calls).req, at) == RefillCount(sh, Start(p), calls, at)
  {
    StartsAtZero(p, at);
    if calls != [] {
      var k := |calls| - 1;
      RoundIsCount(sh, p, calls[..k], at);
      FetchCounts(sh, Run(sh, Start(p), calls[..k]).req, calls[k].maxRows, calls[k].env, at);
    }
  }

  // ----- the order of a window

  lemma OwnOrder(sh: Shards, req: Req, maxRows: nat, env: Env)
    ensures WindowOrder(sh, req, maxRows, env, [], req.round)
  {
    if env.interrupt.NoInterrupt? && Refills(req) {
      var limit := AdaptiveChunk(maxRows, env.pressure);
      var here := PullLocal(sh, req.node, req.local, limit, env.localPressure);
      var below := PullKids(sh, req.kids, limit, env.calls);
      FetchRefills(sh, req, maxRows, env);
      ServeKeepsRound(Filled(req, here, below), limit);
      FilledOrder(req, here, below);
    }
  }

  lemma FilledOrder(req: Req, here: (Progress, QueryResult), below: (seq<Kid>, QueryResult))
    requires WindowRead(req)
    ensures var window := Filled(req, here, below).agg;
      if req.round % 2 == 1 then
        window.trips == below.1.trips + here.1.trips && window.sources == below.1.sources + here.1.sources
      else window.trips == here.1.trips + below.1.trips && window.sources == here.1.sources + below.1.sources
  {
    var (first, second) := if req.round % 2 == 1 then (below.1, here.1) else (here.1, below.1);
    assert Filled(req, here, below).agg == req.agg.Cleared().Merge(first).Merge(second);
    assert [] + first.trips == first.trips && [] + first.sources == first.sources;
  }

  lemma {:induction false} OrderByRound(sh: Shards, req: Req, maxRows: nat, env: Env, at: Position)
    ensures WindowOrder(sh, req, maxRows, env, at, RoundOf(req, at))
    decreases |at|
  {
    if at == [] {
      OwnOrder(sh, req, maxRows, env);
    } else if env.interrupt.NoInterrupt? && Refills(req) {
      match Below(req, maxRows, env, at[0])
      case Nobody =>
      case Child(kid, want, e) => OrderByRound(sh, kid, want, e, at[1..]);
    }
  }

  /** Turns: in every run, at every request of the tree, the refills number 0, 2, 4 and so on put the node's own rows
      first, and the refills number 1, 3, 5 and so on those of its children. */
  lemma {:induction false} RefillsAlternate(sh: Shards, p: Plan, calls: seq<Call>, call: Call, at: Position)
    ensures WindowOrder(sh, Run(sh, Start(p), calls).req, call.maxRows, call.env, at,
                        RefillCount(sh, Start(p), calls, at))
  {
    RoundIsCount(sh, p, calls, at);
    OrderByRound(sh, Run(sh, Start(p), calls).req, call.maxRows, call.env, at);
  }
}
