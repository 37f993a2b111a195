/** A node's query service on values: its request table under any sequence of submissions,
    fetches and stops by any number of clients, and what that means for each of them. */
module ServiceSpec {
  import opened Results
  import opened Graph
  import opened LocalScan
  import opened ChunkSizing
  import opened Forwarding
  import opened Protocol
  import opened ProtocolInvariants
  import opened ProtocolDelivery
  import opened ProtocolMultiplicity
  import opened ProtocolOrder
  import opened ProtocolTermination
  import opened ProtocolReliability
  import opened LocalQueryEngine
  import opened RequestStates
  import opened RemoteQueryClients
  import opened CoordinatorSpec

  datatype Record = Record(id: nat, filter: Filter, req: Req)

  datatype Table = Table(records: seq<Record>, nextId: nat)

  /** The node, the overlay and the data of the system. */
  datatype Site = Site(self: NodeId, overlay: Overlay, data: Data)

  /** What a client, or for timeouts the server itself, asks of the coordinator. */
  datatype Op =
    | SubmitQuery(request: QueryRequest)
    | FetchChunk(id: nat, maxRows: nat, net: seq<NetCall>)
    | StopRequest(id: nat, timeout: bool)

  datatype Answer = Submitted(id: nat) | Rows(found: bool, reply: Reply) | Acknowledged(found: bool)

  /** The first record with this id, or the end of the table. */
  function Find(records: seq<Record>, id: nat): (i: nat)
    ensures i <= |records| && (i < |records| ==> records[i].id == id)
    ensures forall j :: 0 <= j < i ==> records[j].id != id
  {
    if records == [] then 0
    else
      var k := |records| - 1;
      var i := Find(records[..k], id);
      if i < k || records[k].id == id then i else k + 1
  }

  function ActiveIn(records: seq<Record>): nat {
    if records == [] then 0
    else
      var phase := records[|records| - 1].req.phase;
      ActiveIn(records[..|records| - 1]) + if phase.Completed? || phase.Cancelled? || phase.TimedOut? then 0 else 1
  }

  /** Rows cached by the records other than `id`. */
  function CachedBeside(records: seq<Record>, id: nat): nat {
    if records == [] then 0
    else
      var last := records[|records| - 1];
      CachedBeside(records[..|records| - 1], id) + if last.id == id then 0 else |last.req.agg.trips|
  }

  function LoadBeside(records: seq<Record>, id: nat): Load {
    Load(ActiveIn(records), CachedBeside(records, id))
  }

  /** Everything a fetch on this record depends on, in this table. */
  function EnvIn(site: Site, records: seq<Record>, r: Record, maxRows: nat, net: seq<NetCall>): Env {
    EnvOf(LoadBeside(records, r.id), site.data.Shards(r.filter), r.req, maxRows, net)
  }

  function Halt(req: Req, interrupt: Interrupt): Req {
    match interrupt
    case NoInterrupt => req
    case CancelArrives => req.(phase := Cancelled)
    case TimeoutFires => req.(phase := TimedOut)
  }

  /** The table with another state in record `i`. */
  function Put(t: Table, i: nat, req: Req): Table
    requires i < |t.records|
  {
    t.(records := t.records[i := t.records[i].(req := req)])
  }

  function StopBy(timeout: bool): Interrupt {
    if timeout then TimeoutFires else CancelArrives
  }

  /** One call of one client. */
  function Apply(site: Site, t: Table, op: Op): (Table, Answer) {
    match op
    case SubmitQuery(request) =>
      var req := Start(ForwardPlan(site.overlay, site.self, Elements(request.visitedNodeIds) + {site.self}));
      (Table(t.records + [Record(t.nextId, request.filter, req)], t.nextId + 1), Submitted(t.nextId))
    case FetchChunk(id, maxRows, net) =>
      var i := Find(t.records, id);
      if i == |t.records| then (t, Rows(false, STOPPED_REPLY))
      else
        var r := t.records[i];
        var (req, reply) := Fetch(site.data.Shards(r.filter), r.req, maxRows, EnvIn(site, t.records, r, maxRows, net));
        (Put(t, i, req), Rows(true, reply))
    case StopRequest(id, timeout) =>
      var i := Find(t.records, id);
      if i == |t.records| then (t, Acknowledged(false))
      else (Put(t, i, Halt(t.records[i].req, StopBy(timeout))), Acknowledged(true))
  }

  /** A cancel leaves the record CANCELLED and a timeout leaves it TIMED_OUT, whatever it was, and the rest as it
      was; other records stay, and an id without a record is reported. */
  lemma StopIsRecorded(site: Site, t: Table, id: nat, timeout: bool, i: nat)
    requires i < |t.records| && t.records[i].id == id && forall j :: 0 <= j < i ==> t.records[j].id != id
    ensures var (after, answer) := Apply(site, t, StopRequest(id, timeout));
      && answer == Acknowledged(true) && |after.records| == |t.records| && after.nextId == t.nextId
      && (timeout ==> after.records[i].req.phase == TimedOut) && (!timeout ==> after.records[i].req.phase == Cancelled)
      && after.records[i] == t.records[i].(req := t.records[i].req.(phase := after.records[i].req.phase))
      && forall j :: 0 <= j < |t.records| && j != i ==> after.records[j] == t.records[j]
  {
    assert Find(t.records, id) == i;
  }

  function ApplyAll(site: Site, t: Table, ops: seq<Op>): (r: (Table, seq<Answer>))
    ensures |r.1| == |ops|
  {
    if ops == [] then (t, [])
    else
      var k := |ops| - 1;
      var (before, answers) := ApplyAll(site, t, ops[..k]);
      var (after, answer) := Apply(site, before, ops[k]);
      (after, answers + [answer])
  }

  lemma AnswersGrow(site: Site, t: Table, ops: seq<Op>, k: nat, before: Table, answers: seq<Answer>, after: Table,
      answer: Answer)
    requires k < |ops| && (before, answers) == ApplyAll(site, t, ops[..k])
      && (after, answer) == Apply(site, before, ops[k])
    ensures (after, answers + [answer]) == ApplyAll(site, t, ops[..k + 1])
  {
    assert ops[..k + 1][..k] == ops[..k];
  }

  /** The table after a call about one record: that record in its new state, or nothing changed if there is none. */
  ghost predicate OnlyOne(t: Table, now: Table, id: nat, found: bool, i: nat, req: Req) {
    && Find(t.records, id) == (if found then i else |t.records|)
    && (found ==> i < |t.records|)
    && now == if found then Put(t, i, req) else t
  }

  lemma SubmitApplied(site: Site, t: Table, request: QueryRequest, r: Record)
    requires r.id == t.nextId && r.filter == request.filter
    requires r.req == Start(ForwardPlan(site.overlay, site.self, Elements(request.visitedNodeIds) + {site.self}))
    ensures (Table(t.records + [r], t.nextId + 1), Submitted(t.nextId)) == Apply(site, t, SubmitQuery(request))
  {
  }

  lemma FetchApplied(site: Site, t: Table, now: Table, id: nat, maxRows: nat, net: seq<NetCall>, found: bool,
      i: nat, req: Req, reply: Reply)
    requires OnlyOne(t, now, id, found, i, req)
    requires if !found then reply == STOPPED_REPLY
      else (req, reply) == Protocol.Fetch(site.data.Shards(t.records[i].filter), t.records[i].req, maxRows,
                                          EnvIn(site, t.records, t.records[i], maxRows, net))
    ensures (now, Rows(found, reply)) == Apply(site, t, FetchChunk(id, maxRows, net))
  {
  }

  lemma StopApplied(site: Site, t: Table, now: Table, id: nat, timeout: bool, found: bool, i: nat, req: Req)
    requires OnlyOne(t, now, id, found, i, req)
    requires found ==> req == Halt(t.records[i].req, StopBy(timeout))
    ensures (now, Acknowledged(found)) == Apply(site, t, StopRequest(id, timeout))
  {
  }

  // ----- what one client sees

  /** The replies to this client's fetches, in order. */
  function RepliesTo(id: nat, ops: seq<Op>, answers: seq<Answer>): seq<Reply>
    requires |answers| == |ops|
  {
    if ops == [] then []
    else
      var k := |ops| - 1;
      RepliesTo(id, ops[..k], answers[..k])
        + if ops[k].FetchChunk? && ops[k].id == id && answers[k].Rows? then [answers[k].reply] else []
  }

  /** How often the client fetched. */
  function FetchesOf(id: nat, ops: seq<Op>): nat {
    if ops == [] then 0
    else FetchesOf(id, ops[..|ops| - 1]) + if ops[|ops| - 1].FetchChunk? && ops[|ops| - 1].id == id then 1 else 0
  }

  ghost predicate CalmNet(p: Plan, net: seq<NetCall>) {
    && |net| >= |p.kids|
    && forall i :: 0 <= i < |p.kids| ==>
        net[i].submit.Accepted? && net[i].fetch.Replied? && Calm(p.kids[i], net[i].fetch.env)
  }

  /** Nobody stops this request, and whenever it is fetched no call below it can fail. */
  ghost predicate Untroubled(id: nat, p: Plan, ops: seq<Op>) {
    forall k :: 0 <= k < |ops| ==>
      && !(ops[k].StopRequest? && ops[k].id == id)
      && (ops[k].FetchChunk? && ops[k].id == id ==> CalmNet(p, ops[k].net))
  }

  // ----- every record's own calls are a run of the protocol

  /** The calls of one record so far, and a stop that arrived since its last fetch. */
  datatype History = History(calls: seq<Call>, pending: Interrupt)

  function HistoryOf(site: Site, t: Table, ops: seq<Op>, id: nat): History {
    if ops == [] then History([], NoInterrupt)
    else
      var k := |ops| - 1;
      var h := HistoryOf(site, t, ops[..k], id);
      var records := ApplyAll(site, t, ops[..k]).0.records;
      match ops[k]
      case SubmitQuery(_) => h
      case FetchChunk(other, maxRows, net) =>
        if other == id && Find(records, id) < |records| then
          var env := EnvIn(site, records, records[Find(records, id)], maxRows, net);
          History(h.calls + [Call(maxRows, env.(interrupt := h.pending))], NoInterrupt)
        else h
      case StopRequest(other, timeout) => if other == id then h.(pending := StopBy(timeout)) else h
  }

  /** A stop that is already in the record and a stop that arrives with the fetch are the same thing. */
  lemma HaltedFetch(sh: Shards, req: Req, interrupt: Interrupt, maxRows: nat, env: Env)
    requires env.interrupt.NoInterrupt?
    ensures Fetch(sh, Halt(req, interrupt), maxRows, env) == Fetch(sh, req, maxRows, env.(interrupt := interrupt))
  {
  }

  /** Ids are unique and below the next one. */
  ghost predicate ValidTable(t: Table) {
    && (forall i :: 0 <= i < |t.records| ==> t.records[i].id < t.nextId)
    && (forall i, j :: 0 <= i < j < |t.records| ==> t.records[i].id != t.records[j].id)
  }

  /** A later valid table, in which the records of `t` are still in their places. */
  ghost predicate Extends(t: Table, now: Table) {
    && ValidTable(now) && |t.records| <= |now.records|
    && (forall i :: 0 <= i < |t.records| ==>
          now.records[i].id == t.records[i].id && now.records[i].filter == t.records[i].filter)
  }

  lemma ApplyExtends(site: Site, t: Table, now: Table, op: Op)
    requires Extends(t, now)
    ensures Extends(t, Apply(site, now, op).0)
  {
  }

  lemma {:induction false} ApplyAllExtends(site: Site, t: Table, ops: seq<Op>)
    requires ValidTable(t)
    ensures Extends(t, ApplyAll(site, t, ops).0)
  {
    if ops != [] {
      ApplyAllExtends(site, t, ops[..|ops| - 1]);
      ApplyExtends(site, t, ApplyAll(site, t, ops[..|ops| - 1]).0, ops[|ops| - 1]);
    }
  }

  lemma FindIs(records: seq<Record>, i: nat)
    requires i < |records| && forall j :: 0 <= j < |records| && j != i ==> records[j].id != records[i].id
    ensures Find(records, records[i].id) == i
  {
  }

  /** A call that does not name the record leaves it alone. */
  lemma OthersLeaveAlone(site: Site, t: Table, op: Op, i: nat)
    requires i < |t.records| && ValidTable(t)
    requires op.SubmitQuery? || op.id != t.records[i].id
    ensures Apply(site, t, op).0.records[i] == t.records[i]
  {
  }

  /** The record's state and the replies to its client are those of a run of the protocol on its own calls. */
  ghost predicate RunsAlone(site: Site, t: Table, ops: seq<Op>, i: nat)
    requires i < |t.records|
  {
    var (now, answers) := ApplyAll(site, t, ops);
    var r := t.records[i];
    var h := HistoryOf(site, t, ops, r.id);
    var run := Run(site.data.Shards(r.filter), r.req, h.calls);
    && i < |now.records| && now.records[i] == r.(req := Halt(run.req, h.pending))
    && RepliesTo(r.id, ops, answers) == run.replies
    && |h.calls| == FetchesOf(r.id, ops)
  }

  /** Isolation: whatever all clients do, in whatever order, each record runs as if it were alone, under the load it
      meets. */
  lemma {:induction false} RecordRuns(site: Site, t: Table, ops: seq<Op>, i: nat)
    requires ValidTable(t) && i < |t.records|
    ensures RunsAlone(site, t, ops, i)
  {
    if ops != [] {
      var k := |ops| - 1;
      RecordRuns(site, t, ops[..k], i);
      ApplyAllExtends(site, t, ops[..k]);
      if ops[k].FetchChunk? && ops[k].id == t.records[i].id {
        RecordFetched(site, t, ops, i);
      } else {
        RecordNotFetched(site, t, ops, i);
      }
    }
  }

  lemma RecordFetched(site: Site, t: Table, ops: seq<Op>, i: nat)
    requires ValidTable(t) && i < |t.records| && ops != []
    requires RunsAlone(site, t, ops[..|ops| - 1], i) && Extends(t, ApplyAll(site, t, ops[..|ops| - 1]).0)
    requires ops[|ops| - 1].FetchChunk? && ops[|ops| - 1].id == t.records[i].id
    ensures RunsAlone(site, t, ops, i)
  {
    var k := |ops| - 1;
    var (before, answers) := ApplyAll(site, t, ops[..k]);
    var r, op := t.records[i], ops[k];
    var sh, h := site.data.Shards(r.filter), HistoryOf(site, t, ops[..k], r.id);
    var run := Run(sh, r.req, h.calls);
    FindIs(before.records, i);
    var env := EnvIn(site, before.records, before.records[i], op.maxRows, op.net);
    HaltedFetch(sh, run.req, h.pending, op.maxRows, env);
    var call := Call(op.maxRows, env.(interrupt := h.pending));
    assert HistoryOf(site, t, ops, r.id) == History(h.calls + [call], NoInterrupt);
    var (next, reply) := Fetch(sh, run.req, call.maxRows, call.env);
    RunGrows(sh, r.req, h.calls, run, call);
    assert Apply(site, before, op) == (Put(before, i, next), Rows(true, reply));
    assert (answers + [Rows(true, reply)])[..k] == answers;
  }

  lemma RecordNotFetched(site: Site, t: Table, ops: seq<Op>, i: nat)
    requires ValidTable(t) && i < |t.records| && ops != []
    requires RunsAlone(site, t, ops[..|ops| - 1], i) && Extends(t, ApplyAll(site, t, ops[..|ops| - 1]).0)
    requires !(ops[|ops| - 1].FetchChunk? && ops[|ops| - 1].id == t.records[i].id)
    ensures RunsAlone(site, t, ops, i)
  {
    var k := |ops| - 1;
    var (before, answers) := ApplyAll(site, t, ops[..k]);
    var id := t.records[i].id;
    FindIs(before.records, i);
    assert (answers + [Apply(site, before, ops[k]).1])[..k] == answers;
    if ops[k].SubmitQuery? || ops[k].id != id {
      OthersLeaveAlone(site, before, ops[k], i);
    }
  }

  // ----- no failure below the client's own fetches

  /** Every call of a round is what the network does to that child. */
  lemma {:induction false} RoundCallsMeetNet(load: Load, window: nat, sh: Shards, kids: seq<Kid>, maxRows: nat,
      net: seq<NetCall>, j: nat)
    requires j < |kids|
    ensures var ce := RoundCalls(load, window, sh, kids, maxRows, net)[j];
      ce.submitAccepted == NetAt(net, j).submit.Accepted? && ce.fetch == NetAt(net, j).fetch
  {
    if j < |kids| - 1 {
      RoundCallsMeetNet(load, window, sh, kids[..|kids| - 1], maxRows, net, j);
    }
  }

  lemma CalmNetIsReliable(load: Load, sh: Shards, req: Req, maxRows: nat, net: seq<NetCall>)
    requires CalmNet(PlanOf(req), net)
    ensures Reliable(req, EnvOf(load, sh, req, maxRows, net))
  {
    var env := EnvOf(load, sh, req, maxRows, net);
    if Refills(req) {
      forall j | 0 <= j < |req.kids| ensures ReliableCall(req.kids[j], CallAt(env.calls, j)) {
        RefillCallMeetsNet(load, sh, req, maxRows, net, j);
        CalmCallIsReliable(req.kids[j], env.calls[j]);
      }
    }
  }

  lemma RefillCallMeetsNet(load: Load, sh: Shards, req: Req, maxRows: nat, net: seq<NetCall>, j: nat)
    requires Refills(req) && j < |req.kids|
    ensures var env := EnvOf(load, sh, req, maxRows, net);
      && |env.calls| == |req.kids|
      && env.calls[j].submitAccepted == NetAt(net, j).submit.Accepted? && env.calls[j].fetch == NetAt(net, j).fetch
  {
    var limit := AdaptiveChunk(maxRows, load.At(|req.agg.trips|));
    RoundCallsMeetNet(load, 0, sh, req.kids, limit, net, j);
    RoundCallsMeetNet(load, |PullLocal(sh, req.node, req.local, limit, load.At(0)).1.trips|, sh, req.kids, limit,
        net, j);
  }

  /** A client whose request nobody stops, on a network that is calm whenever it fetches, has a run without failures. */
  lemma {:induction false} UntroubledIsReliable(site: Site, t: Table, ops: seq<Op>, i: nat, p: Plan)
    requires ValidTable(t) && i < |t.records| && t.records[i].req == Start(p) && Untroubled(t.records[i].id, p, ops)
    ensures var h := HistoryOf(site, t, ops, t.records[i].id);
      h.pending == NoInterrupt && ReliableRun(site.data.Shards(t.records[i].filter), Start(p), h.calls)
  {
    if ops != [] {
      var k := |ops| - 1;
      var r := t.records[i];
      var sh, h := site.data.Shards(r.filter), HistoryOf(site, t, ops[..k], r.id);
      UntroubledIsReliable(site, t, ops[..k], i, p);
      RecordRuns(site, t, ops[..k], i);
      if ops[k].FetchChunk? && ops[k].id == r.id {
        var records, at := ApplyAll(site, t, ops[..k]).0.records, Run(sh, Start(p), h.calls).req;
        ApplyAllExtends(site, t, ops[..k]);
        FindIs(records, i);
        StartHasPlan(p);
        RunKeepsPlan(sh, Start(p), h.calls);
        CalmNetIsReliable(LoadBeside(records, r.id), sh, at, ops[k].maxRows, ops[k].net);
        var call := Call(ops[k].maxRows, EnvIn(site, records, records[i], ops[k].maxRows, ops[k].net));
        assert (h.calls + [call])[..|h.calls|] == h.calls;
        assert call.env.(interrupt := NoInterrupt) == call.env;
      }
    }
  }

  // ----- what a client can rely on

  /** From every source that is asked once, a prefix of its matching rows. */
  ghost predicate OnlyPrefixes(sh: Shards, ov: Overlay, entry: NodeId, replies: seq<Reply>) {
    forall n :: Occ(ClientPlan(ov, entry), n) <= 1 ==> Proj(n, Delivered(replies)) <= AllTrips(sh(n))
  }

  /** All matching rows of every reachable node, once and in order, and nothing from elsewhere. */
  ghost predicate Everything(sh: Shards, ov: Overlay, entry: NodeId, replies: seq<Reply>) {
    forall n :: Proj(n, Delivered(replies)) == if Reaches(ov, entry, n) then AllTrips(sh(n)) else []
  }

  /** No row more often than its owner is asked, and, if `exact`, every matching row exactly that often. */
  ghost predicate OncePerRequest(sh: Shards, ov: Overlay, entry: NodeId, replies: seq<Reply>, exact: bool) {
    forall n, row ::
      var got, due := Copies(Delivered(replies), n, row),
          Occ(ClientPlan(ov, entry), n) * CopiesIn(AllTrips(sh(n)), row);
      got <= due && (exact ==> got == due)
  }

  /** From every source, as many interleaved scans as it was asked, each a prefix of its matching rows, or all of
      them if `exact`. */
  ghost predicate InterleavedScans(sh: Shards, ov: Overlay, entry: NodeId, replies: seq<Reply>, exact: bool) {
    forall n :: SplitsInto(Delivered(replies), n, Occ(ClientPlan(ov, entry), n), AllTrips(sh(n)), exact)
  }

  /** The last reply says `done`. */
  predicate LastSaysDone(replies: seq<Reply>) {
    replies != [] && replies[|replies| - 1].done
  }

  /** A client's view of its query, in the middle of everything the other clients do: from a source that
      is asked once it never has anything but a prefix, and from no source more copies than it was asked for; if its
      request and its network are untroubled, `done` means that nothing is missing, and on a guarded overlay that it has
      everything once and in order; and it gets `done` by fetching often enough, whatever fails. */
  lemma ClientAmongOthers(site: Site, t: Table, ops: seq<Op>, i: nat)
    requires ValidTable(t) && i < |t.records| && DistinctChildren(site.overlay)
    requires t.records[i].req == Start(ClientPlan(site.overlay, site.self))
    ensures var r := t.records[i];
      var p := ClientPlan(site.overlay, site.self);
      var sh := site.data.Shards(r.filter);
      var replies := RepliesTo(r.id, ops, ApplyAll(site, t, ops).1);
      && OnlyPrefixes(sh, site.overlay, site.self, replies)
      && OncePerRequest(sh, site.overlay, site.self, replies, Untroubled(r.id, p, ops) && LastSaysDone(replies))
      && InterleavedScans(sh, site.overlay, site.self, replies, Untroubled(r.id, p, ops) && LastSaysDone(replies))
      && (GuardedOverlay(site.overlay, site.self) && Untroubled(r.id, p, ops) && LastSaysDone(replies)
          ==> Everything(sh, site.overlay, site.self, replies))
      && (FetchesOf(r.id, ops) > Work(sh, Start(p)) ==> LastSaysDone(replies))
  {
    var r, ov, entry := t.records[i], site.overlay, site.self;
    var p, sh := ClientPlan(ov, entry), site.data.Shards(r.filter);
    var calls := HistoryOf(site, t, ops, r.id).calls;
    var replies := Run(sh, Start(p), calls).replies;
    RecordRuns(site, t, ops, i);
    assert replies == RepliesTo(r.id, ops, ApplyAll(site, t, ops).1);
    forall n | Occ(p, n) <= 1 ensures Proj(n, Delivered(replies)) <= AllTrips(sh(n)) {
      FailuresOnlyTruncate(sh, ov, entry, calls, n);
    }
    if Untroubled(r.id, p, ops) {
      UntroubledIsReliable(site, t, ops, i, p);
    }
    forall n, row
      ensures var got, due := Copies(Delivered(replies), n, row), Occ(p, n) * CopiesIn(AllTrips(sh(n)), row);
        got <= due && (Untroubled(r.id, p, ops) && LastSaysDone(replies) ==> got == due)
    {
      EveryRowOncePerRequest(sh, ov, entry, calls, n, row);
    }
    var exact := Untroubled(r.id, p, ops) && LastSaysDone(replies);
    forall n ensures SplitsInto(Delivered(replies), n, Occ(p, n), AllTrips(sh(n)), exact) {
      RowsAreInterleavedScans(sh, ov, entry, calls, n);
      WeakerSplit(Delivered(replies), n, Occ(p, n), AllTrips(sh(n)), EndedWell(sh, p, calls), exact);
    }
    if GuardedOverlay(ov, entry) && Untroubled(r.id, p, ops) && LastSaysDone(replies) {
      forall n ensures Proj(n, Delivered(replies)) == if Reaches(ov, entry, n) then AllTrips(sh(n)) else [] {
        ReliableRunsAreExact(sh, ov, entry, calls, n);
      }
    }
    if FetchesOf(r.id, ops) > Work(sh, Start(p)) {
      LastReplyIsDone(sh, p, calls);
    }
  }
}
