/** The whole system as it is stored: every node has its own request records, which name their
    sub-requests by the ids that the children gave them; and when such records hold a tree of requests. */
module Network {
  import opened Results
  import opened Graph
  import opened ChunkSizing
  import opened Forwarding
  import opened Protocol
  import opened LocalQueryEngine
  import opened RemoteQueryClients

  // ----- what the nodes store

  const NOWHERE := Req("", Pending, EMPTY_RESULT, 0, 0, FRESH_PROGRESS, [])

  /** A request without its children's states. */
  function Bare(req: Req): Req {
    req.(kids := BareKids(req.kids))
  }

  function BareKid(kid: Kid): Kid {
    kid.(remote := NOWHERE)
  }

  function BareKids(kids: seq<Kid>): (r: seq<Kid>)
    ensures |r| == |kids| && forall i :: 0 <= i < |kids| ==> r[i] == BareKid(kids[i])
  {
    if kids == [] then [] else BareKids(kids[..|kids| - 1]) + [BareKid(kids[|kids| - 1])]
  }

  /** A record at one node: the query, its own fields and per child the progress and the id of the sub-request. */
  datatype NodeRecord = NodeRecord(filter: Filter, visited: set<NodeId>, body: Req, ids: seq<nat>)

  /** All records of all nodes, and the next id of each node. */
  datatype Tables = Tables(records: map<Handle, NodeRecord>, next: NodeId -> nat) {

    ghost predicate Valid() {
      forall h :: h in records ==> h.1 < next(h.0)
    }

    function Put(h: Handle, r: NodeRecord): Tables {
      this.(records := records[h := r])
    }

    /** A node takes a query in: it marks itself and creates a record under a new id of its own. */
    function Accept(ov: Overlay, node: NodeId, filter: Filter, visited: set<NodeId>): Tables {
      var plan := ForwardPlan(ov, node, visited + {node});
      var r := NodeRecord(filter, visited + {node}, Bare(Start(plan)), seq(|plan.kids|, _ => 0));
      var minted := next(node);
      Tables(records[(node, minted) := r], n => if n == node then minted + 1 else next(n))
    }
  }

  datatype KidMoved = KidMoved(sys: Tables, kid: Kid, id: nat, result: QueryResult)

  datatype KidsMoved = KidsMoved(sys: Tables, kids: seq<Kid>, ids: seq<nat>, result: QueryResult)

  /** One chunk of one child: the call goes to the child's own records. */
  function CallKid(data: Data, ov: Overlay, sys: Tables, filter: Filter, passed: set<NodeId>, kid: Kid, id: nat,
      p: Plan, maxRows: nat, ce: CallEnv): KidMoved
    decreases p, 1
  {
    if kid.progress.completed then KidMoved(sys, kid, id, EMPTY_RESULT)
    else if !kid.progress.submitted && !ce.submitAccepted then
      KidMoved(sys, kid.(progress := GiveUp(kid.progress)), id, EMPTY_RESULT)
    else
      var open := kid.progress.(submitted := true);
      var remoteId := if kid.progress.submitted then id else sys.next(kid.id);
      var asked := if kid.progress.submitted then sys else sys.Accept(ov, kid.id, filter, passed);
      var want := AdaptiveChunk(maxRows, ce.pressure);
      match ce.fetch
      case Undelivered => KidMoved(asked, kid.(progress := GiveUp(open)), remoteId, EMPTY_RESULT)
      case ReplyLost(env) =>
        var moved := FetchAt(data, ov, asked, (kid.id, remoteId), p, want, env).0;
        KidMoved(moved, kid.(progress := GiveUp(open)), remoteId, EMPTY_RESULT)
      case Replied(env) =>
        var (moved, reply) := FetchAt(data, ov, asked, (kid.id, remoteId), p, want, env);
        KidMoved(moved, kid.(progress := Updated(open, open.nextStartRow, !reply.done)), remoteId,
            RemoteResult(kid.id, reply))
  }

  /** One chunk of every child, in order. */
  function CallKids(data: Data, ov: Overlay, sys: Tables, filter: Filter, passed: set<NodeId>, kids: seq<Kid>,
      ids: seq<nat>, ps: seq<Plan>, maxRows: nat, calls: seq<CallEnv>): (r: KidsMoved)
    requires |kids| == |ids| == |ps|
    decreases ps, 0
  {
    if kids == [] then KidsMoved(sys, [], [], EMPTY_RESULT)
    else
      var k := |kids| - 1;
      var before := CallKids(data, ov, sys, filter, passed, kids[..k], ids[..k], ps[..k], maxRows, calls);
      var last := CallKid(data, ov, before.sys, filter, passed, kids[k], ids[k], ps[k], maxRows, CallAt(calls, k));
      KidsMoved(last.sys, before.kids + [last.kid], before.ids + [last.id], before.result.Merge(last.result))
  }

  /** One fetch at one node. The plan only bounds the depth of the calls. */
  function FetchAt(data: Data, ov: Overlay, sys: Tables, h: Handle, p: Plan, maxRows: nat, env: Env): (Tables, Reply)
    decreases p, 0
  {
    if h !in sys.records || |sys.records[h].body.kids| != |p.kids|
        || |sys.records[h].ids| != |p.kids| then (sys, STOPPED_REPLY)
    else
      var r := sys.records[h];
      if env.interrupt.CancelArrives? then (sys.Put(h, r.(body := r.body.(phase := Cancelled))), STOPPED_REPLY)
      else if env.interrupt.TimeoutFires? then (sys.Put(h, r.(body := r.body.(phase := TimedOut))), STOPPED_REPLY)
      else if Stopped(r.body) then (sys, STOPPED_REPLY)
      else
        var limit := AdaptiveChunk(maxRows, env.pressure);
        if Refills(r.body) then
          var passed := PassedOn(ov, h.0, r.visited);
          var below := CallKids(data, ov, sys, r.filter, passed, r.body.kids, r.ids, p.kids, limit, env.calls);
          var here := PullLocal(data.Shards(r.filter), r.body.node, r.body.local, limit, env.localPressure);
          var (body, reply) := Serve(Filled(r.body, here, (below.kids, below.result)), limit);
          (below.sys.Put(h, r.(body := body, ids := below.ids)), reply)
        else
          var (body, reply) := Serve(r.body, limit);
          (sys.Put(h, r.(body := body)), reply)
  }

  // ----- records that make up a tree

  /** The records that belong to a tree. */
  function Foot(recs: map<Handle, NodeRecord>, h: Handle, req: Req): set<Handle>
    decreases req
  {
    {h} + if h in recs then FootKids(recs, recs[h].ids, req.kids) else {}
  }

  function FootKids(recs: map<Handle, NodeRecord>, ids: seq<nat>, kids: seq<Kid>): set<Handle>
    decreases kids
  {
    if kids == [] || |ids| != |kids| then {}
    else
      var k := |kids| - 1;
      FootKids(recs, ids[..k], kids[..k]) + FootKid(recs, ids[k], kids[k])
  }

  function FootKid(recs: map<Handle, NodeRecord>, id: nat, kid: Kid): set<Handle>
    decreases kid
  {
    if kid.progress.submitted then Foot(recs, (kid.id, id), kid.remote) else {}
  }

  /** The records from `h` on hold the tree `req`, no record twice. */
  ghost predicate Holds(ov: Overlay, recs: map<Handle, NodeRecord>, h: Handle, f: Filter, req: Req)
    decreases req
  {
    && h in recs && h.0 == req.node && recs[h].filter == f && recs[h].body == Bare(req)
    && HoldsKids(ov, recs, PassedOn(ov, h.0, recs[h].visited), f, recs[h].ids, req.kids)
    && h !in FootKids(recs, recs[h].ids, req.kids)
  }

  ghost predicate HoldsKids(ov: Overlay, recs: map<Handle, NodeRecord>, passed: set<NodeId>, f: Filter,
      ids: seq<nat>, kids: seq<Kid>)
    decreases kids
  {
    && |ids| == |kids|
    && (kids == [] ||
        var k := |kids| - 1;
        && HoldsKids(ov, recs, passed, f, ids[..k], kids[..k]) && HoldsKid(ov, recs, passed, f, ids[k], kids[k])
        && FootKids(recs, ids[..k], kids[..k]) !! FootKid(recs, ids[k], kids[k]))
  }

  /** A submitted child holds its own part; before that its part is what the submission will create. */
  ghost predicate HoldsKid(ov: Overlay, recs: map<Handle, NodeRecord>, passed: set<NodeId>, f: Filter, id: nat,
      kid: Kid)
    decreases kid
  {
    if kid.progress.submitted then Holds(ov, recs, (kid.id, id), f, kid.remote)
    else kid.remote == Start(ForwardPlan(ov, kid.id, passed + {kid.id}))
  }

  lemma {:induction false} FootWithin(ov: Overlay, recs: map<Handle, NodeRecord>, h: Handle, f: Filter, req: Req)
    requires Holds(ov, recs, h, f, req)
    ensures Foot(recs, h, req) <= recs.Keys
    decreases req
  {
    FootKidsWithin(ov, recs, PassedOn(ov, h.0, recs[h].visited), f, recs[h].ids, req.kids);
  }

  lemma {:induction false} FootKidsWithin(ov: Overlay, recs: map<Handle, NodeRecord>, passed: set<NodeId>,
      f: Filter, ids: seq<nat>, kids: seq<Kid>)
    requires HoldsKids(ov, recs, passed, f, ids, kids)
    ensures FootKids(recs, ids, kids) <= recs.Keys
    decreases kids
  {
    if kids != [] {
      var k := |kids| - 1;
      FootKidsWithin(ov, recs, passed, f, ids[..k], kids[..k]);
      FootKidWithin(ov, recs, passed, f, ids[k], kids[k]);
    }
  }

  lemma {:induction false} FootKidWithin(ov: Overlay, recs: map<Handle, NodeRecord>, passed: set<NodeId>, f: Filter,
      id: nat, kid: Kid)
    requires HoldsKid(ov, recs, passed, f, id, kid)
    ensures FootKid(recs, id, kid) <= recs.Keys
    decreases kid
  {
    if kid.progress.submitted {
      FootWithin(ov, recs, (kid.id, id), f, kid.remote);
    }
  }

  // ----- a tree is not touched by what happens outside its records

  ghost predicate Agree(recs: map<Handle, NodeRecord>, recs': map<Handle, NodeRecord>, s: set<Handle>) {
    forall g :: g in s && g in recs ==> g in recs' && recs'[g] == recs[g]
  }

  lemma {:induction false} FrameHolds(ov: Overlay, recs: map<Handle, NodeRecord>, recs': map<Handle, NodeRecord>,
      h: Handle, f: Filter, req: Req)
    requires Holds(ov, recs, h, f, req) && Agree(recs, recs', Foot(recs, h, req))
    ensures Holds(ov, recs', h, f, req) && Foot(recs', h, req) == Foot(recs, h, req)
    decreases req
  {
    FrameKids(ov, recs, recs', PassedOn(ov, h.0, recs[h].visited), f, recs[h].ids, req.kids);
  }

  lemma {:induction false} FrameKids(ov: Overlay, recs: map<Handle, NodeRecord>, recs': map<Handle, NodeRecord>,
      passed: set<NodeId>, f: Filter, ids: seq<nat>, kids: seq<Kid>)
    requires HoldsKids(ov, recs, passed, f, ids, kids) && Agree(recs, recs', FootKids(recs, ids, kids))
    ensures HoldsKids(ov, recs', passed, f, ids, kids) && FootKids(recs', ids, kids) == FootKids(recs, ids, kids)
    decreases kids
  {
    if kids != [] {
      var k := |kids| - 1;
      FrameKids(ov, recs, recs', passed, f, ids[..k], kids[..k]);
      FrameKid(ov, recs, recs', passed, f, ids[k], kids[k]);
    }
  }

  lemma {:induction false} FrameKid(ov: Overlay, recs: map<Handle, NodeRecord>, recs': map<Handle, NodeRecord>,
      passed: set<NodeId>, f: Filter, id: nat, kid: Kid)
    requires HoldsKid(ov, recs, passed, f, id, kid) && Agree(recs, recs', FootKid(recs, id, kid))
    ensures HoldsKid(ov, recs', passed, f, id, kid) && FootKid(recs', id, kid) == FootKid(recs, id, kid)
    decreases kid
  {
    if kid.progress.submitted {
      FrameHolds(ov, recs, recs', (kid.id, id), f, kid.remote);
    }
  }

  lemma HoldsKidsAppend(ov: Overlay, recs: map<Handle, NodeRecord>, passed: set<NodeId>, f: Filter, ids: seq<nat>,
      kids: seq<Kid>, id: nat, kid: Kid)
    requires HoldsKids(ov, recs, passed, f, ids, kids) && HoldsKid(ov, recs, passed, f, id, kid)
    requires FootKids(recs, ids, kids) !! FootKid(recs, id, kid)
    ensures HoldsKids(ov, recs, passed, f, ids + [id], kids + [kid])
    ensures FootKids(recs, ids + [id], kids + [kid]) == FootKids(recs, ids, kids) + FootKid(recs, id, kid)
  {
    assert (ids + [id])[..|kids|] == ids && (kids + [kid])[..|kids|] == kids;
  }

  // ----- submission

  lemma {:induction false} UnsentKidsHeld(ov: Overlay, recs: map<Handle, NodeRecord>, passed: set<NodeId>,
      f: Filter, ids: seq<nat>, kids: seq<Kid>)
    requires |ids| == |kids|
    requires forall i :: 0 <= i < |kids| ==>
      !kids[i].progress.submitted && HoldsKid(ov, recs, passed, f, ids[i], kids[i])
    ensures HoldsKids(ov, recs, passed, f, ids, kids) && FootKids(recs, ids, kids) == {}
  {
    if kids != [] {
      var k := |kids| - 1;
      UnsentKidsHeld(ov, recs, passed, f, ids[..k], kids[..k]);
    }
  }

  /** The children of a new record, before anything is sent to them. */
  lemma StartKidsHeld(ov: Overlay, recs: map<Handle, NodeRecord>, node: NodeId, visited: set<NodeId>, f: Filter,
      ids: seq<nat>)
    requires |ids| == |ForwardPlan(ov, node, visited).kids|
    ensures var kids := Start(ForwardPlan(ov, node, visited)).kids;
      HoldsKids(ov, recs, PassedOn(ov, node, visited), f, ids, kids) && FootKids(recs, ids, kids) == {}
  {
    var p, passed := ForwardPlan(ov, node, visited), PassedOn(ov, node, visited);
    var kids := Start(p).kids;
    forall i | 0 <= i < |kids| ensures !kids[i].progress.submitted && HoldsKid(ov, recs, passed, f, ids[i], kids[i]) {
      assert kids[i] == Kid(p.kids[i].node, FRESH_PROGRESS, Start(p.kids[i]));
      PlannedKid(ov, node, visited, i);
    }
    UnsentKidsHeld(ov, recs, passed, f, ids, kids);
  }

  /** Children of a forwarding plan are planned with what the node passes on. */
  lemma PlannedKid(ov: Overlay, node: NodeId, visited: set<NodeId>, i: nat)
    requires i < |ForwardPlan(ov, node, visited).kids|
    ensures var kid := ForwardPlan(ov, node, visited).kids[i];
      kid == ForwardPlan(ov, kid.node, PassedOn(ov, node, visited) + {kid.node})
  {
    var targets, passed := Scheduled(Children(ov, node), visited + {node}), PassedOn(ov, node, visited);
    assert targets[i] in Children(ov, node);
    assert passed + {targets[i]} == passed;
    assert ForwardPlan(ov, node, visited).kids[i] == ForwardPlan(ov, targets[i], passed);
  }

  /** A submission creates one new record, which holds a fresh tree. */
  lemma AcceptHolds(ov: Overlay, sys: Tables, node: NodeId, f: Filter, visited: set<NodeId>)
    requires sys.Valid()
    ensures var after := sys.Accept(ov, node, f, visited);
      var h := (node, sys.next(node));
      && h !in sys.records && after.Valid()
          && Holds(ov, after.records, h, f, Start(ForwardPlan(ov, node, visited + {node})))
      && Foot(after.records, h, Start(ForwardPlan(ov, node, visited + {node}))) == {h}
      && after.records.Keys == sys.records.Keys + {h} && Agree(sys.records, after.records, sys.records.Keys)
  {
    var after, h := sys.Accept(ov, node, f, visited), (node, sys.next(node));
    StartKidsHeld(ov, after.records, node, visited + {node}, f, after.records[h].ids);
    assert ForwardPlan(ov, node, visited + {node}).node == node;
  }
}
