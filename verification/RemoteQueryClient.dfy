/** The other nodes as one coordinator sees them: sub-queries it has submitted,
    each advancing by the fetch protocol when it is called. */
module RemoteQueryClients {
  import opened Results
  import opened Graph
  import opened Forwarding
  import opened ChunkSizing
  import opened Protocol
  import opened LocalQueryEngine
  import opened RequestStates

  /** A submission fails before the child created its record, or after that with the reply lost, or succeeds. */
  datatype SubmitEnv = Refused | AcceptedReplyLost | Accepted

  /** What the network does to the calls to one child during one fetch. */
  datatype NetCall = NetCall(submit: SubmitEnv, fetch: FetchEnv)

  const LOST := NetCall(Refused, Undelivered)

  function NetAt(net: seq<NetCall>, i: nat): NetCall {
    if i < |net| then net[i] else LOST
  }

  /** A sub-query at a child. */
  datatype RemoteRequest = RemoteRequest(filter: Filter, req: Req)

  /** The data of the whole system and the parser all nodes share. */
  datatype Data = Data(stores: NodeId -> PartitionStore, parser: Parser) {
    function Shards(f: Filter): Shards {
      n => StoreRows(stores(n), parser, f)
    }
  }

  type Handle = (NodeId, nat)

  /** How a child moves under one fetch call, and the reply that arrives, if any. */
  function Served(sh: Shards, req: Req, maxRows: nat, fetch: FetchEnv): (Req, Option<Reply>) {
    match fetch
    case Undelivered => (req, None)
    case ReplyLost(env) => (Fetch(sh, req, maxRows, env).0, None)
    case Replied(env) =>
      var (after, reply) := Fetch(sh, req, maxRows, env);
      (after, Some(reply))
  }

  /** A submitted child moves and reports as its call was served. */
  lemma SubmittedPull(sh: Shards, kid: Kid, maxRows: nat, ce: CallEnv)
    requires kid.progress.submitted && !kid.progress.completed
    ensures var (after, sent) := Served(sh, kid.remote, AdaptiveChunk(maxRows, ce.pressure), ce.fetch);
      PullKid(sh, kid, maxRows, ce) ==
        match sent
        case None => (Kid(kid.id, GiveUp(kid.progress), after), EMPTY_RESULT)
        case Some(reply) => (Kid(kid.id, Updated(kid.progress, kid.progress.nextStartRow, !reply.done), after),
            RemoteResult(kid.id, reply))
  {
    assert kid.progress.(submitted := true) == kid.progress;
  }

  class RemoteQueryClient {
    const overlay: Overlay
    const data: Data
    var requests: map<Handle, RemoteRequest>
    var nextId: nat

    constructor (overlay: Overlay, data: Data)
      ensures this.overlay == overlay && this.data == data && requests == map[]
    {
      this.overlay, this.data, requests, nextId := overlay, data, map[], 1;
    }

    ghost predicate Valid()
      reads this
    {
      forall h :: h in requests ==> h.1 < nextId
    }

    /** The child marks itself visited and creates its own request state under an id of its own;
        the caller learns the id only if the reply arrives. */
    method SubmitSubQuery(target: NodeId, request: QueryRequest, submit: SubmitEnv)
      returns (ok: bool, remoteRequestId: nat, ghost created: nat)
      requires Valid()
      modifies this
      ensures Valid()
      ensures ok == submit.Accepted? && (ok ==> remoteRequestId == created)
      ensures (target, created) !in old(requests)
      ensures requests == if submit.Refused? then old(requests)
                          else old(requests)[(target, created) := RemoteRequest(request.filter,
                            Start(ForwardPlan(overlay, target, Elements(request.visitedNodeIds) + {target})))]
    {
      ok, remoteRequestId, created := submit.Accepted?, 0, nextId;
      if !submit.Refused? {
        var received := request.MarkVisitedNode(target);
        requests := requests[(target, nextId) := RemoteRequest(request.filter,
          Start(ForwardPlan(overlay, target, Elements(received.visitedNodeIds))))];
        if ok {
          remoteRequestId := nextId;
        }
        nextId := nextId + 1;
      }
    }

    /** One fetch on the child's request; it may fail before or after the child moved. */
    method FetchSubChunk(target: NodeId, remoteRequestId: nat, maxRows: nat, fetch: FetchEnv)
        returns (ok: bool, reply: Reply)
      requires Valid()
      modifies this
      ensures Valid()
      ensures (target, remoteRequestId) !in old(requests) ==> !ok && requests == old(requests)
      ensures (target, remoteRequestId) in old(requests) ==>
        var r := old(requests)[(target, remoteRequestId)];
        var (after, sent) := Served(data.Shards(r.filter), r.req, maxRows, fetch);
        && requests == old(requests)[(target, remoteRequestId) := r.(req := after)]
        && ok == sent.Some? && (ok ==> reply == sent.value)
    {
      ok, reply := false, STOPPED_REPLY;
      if (target, remoteRequestId) in requests {
        var r := requests[(target, remoteRequestId)];
        var (after, sent) := Served(data.Shards(r.filter), r.req, maxRows, fetch);
        requests := requests[(target, remoteRequestId) := r.(req := after)];
        if sent.Some? {
          ok, reply := true, sent.value;
        }
      }
    }
  }
}
