/** A node's query service against the coordinator that works in place: each call does to
    the request table what the specification on values says, for any sequence of calls. */
module QueryServices {
  import opened Graph
  import opened Forwarding
  import opened Protocol
  import opened ProtocolTermination
  import opened LocalQueryEngine
  import opened RequestStates
  import opened RemoteQueryClients
  import opened QueryCoordinators
  import opened ServiceSpec

  // ----- the table of a coordinator

  ghost function SiteOf(c: QueryCoordinator): Site {
    Site(c.selfNodeId, c.overlay, c.remoteClient.data)
  }

  ghost function RecordOf(c: QueryCoordinator, s: RequestState): Record
    reads s, c.remoteClient
  {
    Record(s.queryId, s.request.filter, c.Abs(s))
  }

  ghost function RecordsOf(c: QueryCoordinator, states: seq<RequestState>): (r: seq<Record>)
    reads states, c.remoteClient
    ensures |r| == |states| && forall i :: 0 <= i < |states| ==> r[i] == RecordOf(c, states[i])
  {
    if states == [] then [] else RecordsOf(c, states[..|states| - 1]) + [RecordOf(c, states[|states| - 1])]
  }

  ghost function TableOf(c: QueryCoordinator): Table
    reads c, c.queryStates, c.remoteClient
  {
    Table(RecordsOf(c, c.queryStates), c.nextQuerySeq)
  }

  lemma {:induction false} SameActive(c: QueryCoordinator, states: seq<RequestState>)
    ensures ActiveRequests(states) == ActiveIn(RecordsOf(c, states))
  {
    if states != [] {
      SameActive(c, states[..|states| - 1]);
      assert RecordsOf(c, states)[..|states| - 1] == RecordsOf(c, states[..|states| - 1]);
    }
  }

  lemma {:induction false} SameCached(c: QueryCoordinator, states: seq<RequestState>, s: RequestState)
    requires forall i :: 0 <= i < |states| ==> (states[i] == s <==> states[i].queryId == s.queryId)
    ensures CachedElsewhere(states, s) == CachedBeside(RecordsOf(c, states), s.queryId)
  {
    if states != [] {
      SameCached(c, states[..|states| - 1], s);
      assert RecordsOf(c, states)[..|states| - 1] == RecordsOf(c, states[..|states| - 1]);
    }
  }

  lemma SameLoad(c: QueryCoordinator, states: seq<RequestState>, i: nat)
    requires RecordsDistinct(states) && i < |states|
    ensures ActiveRequests(states) == ActiveIn(RecordsOf(c, states))
    ensures CachedElsewhere(states, states[i]) == CachedBeside(RecordsOf(c, states), states[i].queryId)
  {
    SameActive(c, states);
    IdsTellApart(states, i);
    SameCached(c, states, states[i]);
  }

  lemma IdsTellApart(states: seq<RequestState>, i: nat)
    requires RecordsDistinct(states) && i < |states|
    ensures forall j :: 0 <= j < |states| ==> (states[j] == states[i] <==> states[j].queryId == states[i].queryId)
  {
    DistinctFrom(states, i);
  }

  /** The load each record meets is that of the table. */
  lemma SameLoads(c: QueryCoordinator)
    requires RecordsDistinct(c.queryStates)
    ensures forall i :: 0 <= i < |c.queryStates| ==>
      c.LoadOf(c.queryStates[i]) == LoadBeside(TableOf(c).records, c.queryStates[i].queryId)
  {
    forall i | 0 <= i < |c.queryStates|
      ensures c.LoadOf(c.queryStates[i]) == LoadBeside(TableOf(c).records, c.queryStates[i].queryId)
    {
      SameLoad(c, c.queryStates, i);
    }
  }

  /** If at most the record with this id moved since the table was `was`, the table differs in that place only. */
  lemma OnlyOneMoved(c: QueryCoordinator, was: Table, id: nat, found: bool, i: nat, req: Req)
    requires RecordsDistinct(c.queryStates) && |was.records| == |c.queryStates| && was.nextId == c.nextQuerySeq
    requires forall j :: 0 <= j < |c.queryStates| ==>
      was.records[j] == RecordOf(c, c.queryStates[j]).(req := was.records[j].req)
    requires found <==> exists j :: 0 <= j < |c.queryStates| && c.queryStates[j].queryId == id
    requires found ==> i < |c.queryStates| && c.queryStates[i].queryId == id && req == c.Abs(c.queryStates[i])
    requires forall j :: 0 <= j < |c.queryStates| && !(found && j == i) ==>
      was.records[j].req == c.Abs(c.queryStates[j])
    ensures OnlyOne(was, TableOf(c), id, found, i, req)
  {
    var records := TableOf(c).records;
    forall j | 0 <= j < |records| ensures records[j] == was.records[j].(req := c.Abs(c.queryStates[j])) {
      assert records[j] == RecordOf(c, c.queryStates[j]);
    }
    if found {
      DistinctFrom(c.queryStates, i);
      FindIs(was.records, i);
      assert records == Put(was, i, req).records;
    } else {
      assert records == was.records;
    }
  }

  /** If one record was added since the table was `was` and the others stayed, the table has it at the end. */
  lemma OneAdded(c: QueryCoordinator, was: Table, s: RequestState)
    requires |c.queryStates| == |was.records| + 1 && c.queryStates[|was.records|] == s
      && c.nextQuerySeq == was.nextId + 1
    requires forall j :: 0 <= j < |was.records| ==> was.records[j] == RecordOf(c, c.queryStates[j])
    ensures TableOf(c) == Table(was.records + [RecordOf(c, s)], was.nextId + 1)
  {
    assert TableOf(c).records == was.records + [RecordOf(c, s)];
  }

  // ----- one call

  /** Records are only added. */
  twostate predicate Grown(c: QueryCoordinator)
    reads c
  {
    && old(c.queryStates) <= c.queryStates
    && forall j :: |old(c.queryStates)| <= j < |c.queryStates| ==> fresh(c.queryStates[j])
  }

  method SubmitRpc(c: QueryCoordinator, request: QueryRequest) returns (answer: Answer)
    requires c.Valid()
    modifies c
    ensures c.Valid() && Grown(c)
    ensures (TableOf(c), answer) == Apply(SiteOf(c), old(TableOf(c)), SubmitQuery(request))
  {
    ghost var was, states := TableOf(c), c.queryStates;
    var id, s := c.Submit(request);
    forall j | 0 <= j < |states| ensures was.records[j] == RecordOf(c, c.queryStates[j]) {
      assert c.queryStates[j] == states[j];
    }
    OneAdded(c, was, s);
    SubmitApplied(SiteOf(c), was, request, RecordOf(c, s));
    answer := Submitted(id);
    assert states <= c.queryStates;
  }

  method FetchRpc(c: QueryCoordinator, id: nat, maxRows: nat, net: seq<NetCall>) returns (answer: Answer)
    requires c.Valid()
    modifies c.queryStates, c.remoteClient
    ensures c.Valid()
    ensures (TableOf(c), answer) == Apply(SiteOf(c), old(TableOf(c)), FetchChunk(id, maxRows, net))
  {
    SameLoads(c);
    var out, i := c.FetchChunkForRpc(id, maxRows, net);
    ghost var req := Start(ClientPlan(c.overlay, c.selfNodeId));
    if out.found {
      req := c.Abs(c.queryStates[i]);
    }
    OnlyOneMoved(c, old(TableOf(c)), id, out.found, i, req);
    FetchApplied(SiteOf(c), old(TableOf(c)), TableOf(c), id, maxRows, net, out.found, i, req, out.reply);
    answer := Rows(out.found, out.reply);
  }

  method StopRpc(c: QueryCoordinator, id: nat, timeout: bool) returns (answer: Answer)
    requires c.Valid()
    modifies c.queryStates
    ensures c.Valid()
    ensures (TableOf(c), answer) == Apply(SiteOf(c), old(TableOf(c)), StopRequest(id, timeout))
  {
    var found, i := c.Interrupt(id, if timeout then TimedOut else Cancelled);
    ghost var req := Start(ClientPlan(c.overlay, c.selfNodeId));
    if found {
      req := c.Abs(c.queryStates[i]);
      assert req == Halt(old(c.Abs(c.queryStates[i])), StopBy(timeout));
    }
    OnlyOneMoved(c, old(TableOf(c)), id, found, i, req);
    StopApplied(SiteOf(c), old(TableOf(c)), TableOf(c), id, timeout, found, i, req);
    answer := Acknowledged(found);
  }

  method Perform(c: QueryCoordinator, op: Op) returns (answer: Answer)
    requires c.Valid()
    modifies c, c.queryStates, c.remoteClient
    ensures c.Valid() && Grown(c)
    ensures (TableOf(c), answer) == Apply(SiteOf(c), old(TableOf(c)), op)
  {
    match op
    case SubmitQuery(request) =>
      answer := SubmitRpc(c, request);
    case FetchChunk(id, maxRows, net) =>
      answer := FetchRpc(c, id, maxRows, net);
    case StopRequest(id, timeout) =>
      answer := StopRpc(c, id, timeout);
  }

  // ----- any sequence of calls

  /** The service under any sequence of calls is the specification's table under that sequence. */
  method PerformAll(c: QueryCoordinator, ops: seq<Op>) returns (answers: seq<Answer>)
    requires c.Valid()
    modifies c, c.queryStates, c.remoteClient
    ensures c.Valid() && (TableOf(c), answers) == ApplyAll(SiteOf(c), old(TableOf(c)), ops)
  {
    answers := [];
    ghost var was := TableOf(c);
    var k := 0;
    while k < |ops|
      invariant k == |answers| <= |ops| && c.Valid()
      invariant Grown(c)
      invariant (TableOf(c), answers) == ApplyAll(SiteOf(c), was, ops[..k])
    {
      ghost var before := TableOf(c);
      var answer := Perform(c, ops[k]);
      AnswersGrow(SiteOf(c), was, ops, k, before, answers, TableOf(c), answer);
      answers := answers + [answer];
      k := k + 1;
    }
    assert ops[..k] == ops;
  }

  lemma TableIsValid(c: QueryCoordinator)
    requires c.Valid()
    ensures ValidTable(TableOf(c))
  {
    var states, records := c.queryStates, TableOf(c).records;
    forall i, j | 0 <= i < j < |records| ensures records[i].id != records[j].id {
      assert Apart(states[i], states[j]);
    }
  }

  /** A client submits its query and then fetches, while any other clients submit, fetch and stop
      requests, and its own may be stopped too. From a source that is asked once it gets nothing but a prefix of
      the matching rows; on a guarded overlay, if its request is never stopped and its network is calm,
      `done` means it has everything; and fetching often enough gives `done`, whatever happens. */
  method QueryAmongOthers(c: QueryCoordinator, f: Filter, ops: seq<Op>) returns (id: nat, answers: seq<Answer>)
    requires c.Valid()
    modifies c, c.queryStates, c.remoteClient
    ensures c.Valid() && id == old(TableOf(c)).nextId
    ensures var t := Apply(SiteOf(c), old(TableOf(c)), SubmitQuery(QueryRequest(f, []))).0;
      (TableOf(c), answers) == ApplyAll(SiteOf(c), t, ops)
    ensures OnlyPrefixes(c.remoteClient.data.Shards(f), c.overlay, c.selfNodeId, RepliesTo(id, ops, answers))
    ensures OncePerRequest(c.remoteClient.data.Shards(f), c.overlay, c.selfNodeId, RepliesTo(id, ops, answers),
              Untroubled(id, ClientPlan(c.overlay, c.selfNodeId), ops) && LastSaysDone(RepliesTo(id, ops, answers)))
    ensures InterleavedScans(c.remoteClient.data.Shards(f), c.overlay, c.selfNodeId, RepliesTo(id, ops, answers),
              Untroubled(id, ClientPlan(c.overlay, c.selfNodeId), ops) && LastSaysDone(RepliesTo(id, ops, answers)))
    ensures GuardedOverlay(c.overlay, c.selfNodeId) && Untroubled(id, ClientPlan(c.overlay, c.selfNodeId), ops)
         && LastSaysDone(RepliesTo(id, ops, answers))
      ==> Everything(c.remoteClient.data.Shards(f), c.overlay, c.selfNodeId, RepliesTo(id, ops, answers))
    ensures FetchesOf(id, ops) > Work(c.remoteClient.data.Shards(f), Start(ClientPlan(c.overlay, c.selfNodeId)))
      ==> LastSaysDone(RepliesTo(id, ops, answers))
  {
    id := c.nextQuerySeq;
    var accepted := SubmitRpc(c, QueryRequest(f, []));
    assert Elements([]) + {c.selfNodeId} == {c.selfNodeId};
    ghost var t, i := TableOf(c), |c.queryStates| - 1;
    assert t.records[i] == Record(id, f, Start(ClientPlan(c.overlay, c.selfNodeId)));
    TableIsValid(c);
    answers := PerformAll(c, ops);
    ClientAmongOthers(SiteOf(c), t, ops, i);
  }
}
