/** The on-demand fetch protocol on values: the state of one request, the states of
    the sub-requests below it, and what one fetch does to all of them.
    What the network and the load do during a fetch is an arbitrary `Env`. */
module Protocol {
  import opened Results
  import opened LocalScan
  import opened ChunkSizing
  import opened Forwarding

  datatype Phase = Pending | InProgress | Completed | Cancelled | TimedOut

  datatype Progress = Progress(nextStartRow: nat, hasMore: bool, completed: bool, submitted: bool)

  const FRESH_PROGRESS := Progress(0, true, false, false)

  /** A request at one node: cached window `agg`, read cursor, fetch round,
      progress on the local shard, and the sub-requests in forwarding order. */
  datatype Req = Req(
    node: NodeId,
    phase: Phase,
    agg: QueryResult,
    cursor: nat,
    round: nat,
    local: Progress,
    kids: seq<Kid>
  )

  /** A child and its side of the conversation; before the sub-query is
      submitted, `remote` is the state that the submission will create. */
  datatype Kid = Kid(id: NodeId, progress: Progress, remote: Req)

  datatype Reply = Reply(trips: seq<TaxiTrip>, sources: seq<NodeId>, done: bool)

  const STOPPED_REPLY := Reply([], [], true)

  /** A cancel or timeout that reached the node before this fetch. */
  datatype Interrupt = NoInterrupt | CancelArrives | TimeoutFires

  datatype Env = Env(interrupt: Interrupt, pressure: real, localPressure: real, calls: seq<CallEnv>)

  datatype CallEnv = CallEnv(pressure: real, submitAccepted: bool, fetch: FetchEnv)

  /** A fetch call fails before the child moves, or after it moved with its reply lost, or succeeds. */
  datatype FetchEnv = Undelivered | ReplyLost(lost: Env) | Replied(env: Env)

  const UNREACHABLE := CallEnv(0.0, false, Undelivered)

  function CallAt(calls: seq<CallEnv>, i: nat): CallEnv {
    if i < |calls| then calls[i] else UNREACHABLE
  }

  // ----- submission

  /** The state a submission creates; nothing is fetched yet. */
  function Start(p: Plan): Req {
    Req(p.node, InProgress, EMPTY_RESULT, 0, 0, FRESH_PROGRESS, StartAll(p.kids))
  }

  function StartAll(ps: seq<Plan>): (r: seq<Kid>)
    ensures |r| == |ps|
    ensures forall i :: 0 <= i < |ps| ==> r[i] == Kid(ps[i].node, FRESH_PROGRESS, Start(ps[i]))
  {
    if ps == [] then []
    else
      var last := ps[|ps| - 1];
      StartAll(ps[..|ps| - 1]) + [Kid(last.node, FRESH_PROGRESS, Start(last))]
  }

  // ----- one fetch

  predicate Stopped(req: Req) {
    req.phase.Cancelled? || req.phase.TimedOut?
  }

  predicate AllKidsCompleted(kids: seq<Kid>) {
    forall i :: 0 <= i < |kids| ==> kids[i].progress.completed
  }

  predicate AllCompleted(req: Req) {
    req.local.completed && AllKidsCompleted(req.kids)
  }

  predicate WindowRead(req: Req) {
    req.cursor >= |req.agg.trips|
  }

  /** This fetch finds the window read and work left. */
  predicate Refills(req: Req) {
    !Stopped(req) && WindowRead(req) && !AllCompleted(req)
  }

  function Repeat(n: NodeId, k: nat): (r: seq<NodeId>)
    ensures |r| == k && forall i :: 0 <= i < k ==> r[i] == n
  {
    seq(k, _ => n)
  }

  function RowRefs(n: NodeId, ids: seq<nat>): seq<RowRef> {
    seq(|ids|, i requires 0 <= i < |ids| => RowRef(n, ids[i]))
  }

  /** The result of one local chunk, labelled with its node. */
  function LocalResult(node: NodeId, c: Chunk): QueryResult {
    QueryResult(c.rowsScanned, |c.ids|, RowRefs(node, c.ids), c.trips, Repeat(node, |c.trips|),
                0, |c.ids|, c.nextStartRow, c.hasMore)
  }

  /** The result of one child's reply, labelled by its sources. */
  function RemoteResult(child: NodeId, reply: Reply): QueryResult {
    var n := |reply.trips|;
    QueryResult(n, n, [], reply.trips, if |reply.sources| == n then reply.sources else Repeat(child, n),
                0, n, 0, !reply.done)
  }

  function Updated(p: Progress, nextStartRow: nat, hasMore: bool): Progress {
    p.(nextStartRow := nextStartRow, hasMore := hasMore, completed := !hasMore)
  }

  function GiveUp(p: Progress): Progress {
    p.(completed := true, hasMore := false)
  }

  /** One bounded chunk of the local shard, unless it is exhausted. */
  function PullLocal(sh: Shards, node: NodeId, local: Progress, maxRows: nat, pressure: real): (Progress, QueryResult) {
    if local.completed then (local, EMPTY_RESULT)
    else
      var c := ScanFrom(sh(node), local.nextStartRow, AdaptiveChunk(maxRows, pressure), SCAN_ROW_BUDGET);
      (Updated(local, c.nextStartRow, c.hasMore), LocalResult(node, c))
  }

  /** One chunk of one child: submit on first use, then fetch; a failed call gives the child up for good. */
  function PullKid(sh: Shards, kid: Kid, maxRows: nat, ce: CallEnv): (Kid, QueryResult)
    decreases kid
  {
    if kid.progress.completed then (kid, EMPTY_RESULT)
    else if !kid.progress.submitted && !ce.submitAccepted then
      (kid.(progress := GiveUp(kid.progress)), EMPTY_RESULT)
    else
      var open := kid.progress.(submitted := true);
      var want := AdaptiveChunk(maxRows, ce.pressure);
      match ce.fetch
      case Undelivered => (kid.(progress := GiveUp(open)), EMPTY_RESULT)
      case ReplyLost(env) =>
        (kid.(progress := GiveUp(open), remote := Fetch(sh, kid.remote, want, env).0), EMPTY_RESULT)
      case Replied(env) =>
        var (remote, reply) := Fetch(sh, kid.remote, want, env);
        (Kid(kid.id, Updated(open, open.nextStartRow, !reply.done), remote), RemoteResult(kid.id, reply))
  }

  /** One chunk of every incomplete child, in order. */
  function PullKids(sh: Shards, kids: seq<Kid>, maxRows: nat, calls: seq<CallEnv>): (r: (seq<Kid>, QueryResult))
    ensures |r.0| == |kids|
    decreases kids
  {
    if kids == [] then ([], EMPTY_RESULT)
    else
      var k := |kids| - 1;
      var (before, partial) := PullKids(sh, kids[..k], maxRows, calls);
      var (last, lastResult) := PullKid(sh, kids[k], maxRows, CallAt(calls, k));
      (before + [last], partial.Merge(lastResult))
  }

  /** Fills the window: a read-out window is dropped first, and the order of
      local and remote work alternates from round to round. */
  function Pull(sh: Shards, req: Req, maxRows: nat, env: Env): Req
    decreases req, 0
  {
    Filled(req, PullLocal(sh, req.node, req.local, maxRows, env.localPressure),
        PullKids(sh, req.kids, maxRows, env.calls))
  }

  function Filled(req: Req, here: (Progress, QueryResult), below: (seq<Kid>, QueryResult)): Req {
    var cleared := if WindowRead(req) then req.agg.Cleared() else req.agg;
    var agg := if req.round % 2 == 1 then cleared.Merge(below.1).Merge(here.1)
        else cleared.Merge(here.1).Merge(below.1);
    var cursor := if WindowRead(req) then 0 else req.cursor;
    var next := Req(req.node, req.phase, agg, cursor, req.round + 1, here.0, below.0);
    if AllCompleted(next) then next.(phase := Completed) else next
  }

  /** Hands out up to `limit` unread rows of the window. */
  function Serve(req: Req, limit: nat): (Req, Reply) {
    if WindowRead(req) then (req, Reply([], [], AllCompleted(req)))
    else
      var take := Min(limit, |req.agg.trips| - req.cursor);
      var end := req.cursor + take;
      var sources := if |req.agg.sources| >= end then req.agg.sources[req.cursor..end] else Repeat(req.node, take);
      var read := req.(cursor := end);
      var done := WindowRead(read) && AllCompleted(read);
      (if done then read.(phase := Completed) else read, Reply(req.agg.trips[req.cursor..end], sources, done))
  }

  /** One fetch RPC on an existing request. */
  function Fetch(sh: Shards, req: Req, maxRows: nat, env: Env): (Req, Reply)
    decreases req, 1
  {
    if env.interrupt.CancelArrives? then (req.(phase := Cancelled), STOPPED_REPLY)
    else if env.interrupt.TimeoutFires? then (req.(phase := TimedOut), STOPPED_REPLY)
    else if Stopped(req) then (req, STOPPED_REPLY)
    else
      var limit := AdaptiveChunk(maxRows, env.pressure);
      var ready := if Refills(req) then Pull(sh, req, limit, env) else req;
      Serve(ready, limit)
  }

  // ----- runs of the root request

  /** One client fetch and what happens around it. */
  datatype Call = Call(maxRows: nat, env: Env)

  datatype Outcome = Outcome(req: Req, replies: seq<Reply>)

  function Run(sh: Shards, req: Req, calls: seq<Call>): (r: Outcome)
    ensures |r.replies| == |calls|
  {
    if calls == [] then Outcome(req, [])
    else
      var k := |calls| - 1;
      var before := Run(sh, req, calls[..k]);
      var (next, reply) := Fetch(sh, before.req, calls[k].maxRows, calls[k].env);
      Outcome(next, before.replies + [reply])
  }

  /** Rows with their source labels. */
  type Labelled = seq<(NodeId, TaxiTrip)>

  function Zip(trips: seq<TaxiTrip>, sources: seq<NodeId>): Labelled {
    seq(Min(|trips|, |sources|), i requires 0 <= i < |trips| && i < |sources| => (sources[i], trips[i]))
  }

  function Delivered(replies: seq<Reply>): Labelled {
    if replies == [] then []
    else
      var last := replies[|replies| - 1];
      Delivered(replies[..|replies| - 1]) + Zip(last.trips, last.sources)
  }

  /** The trips of one source, in the order in which they appear. */
  function Proj(s: NodeId, rows: Labelled): seq<TaxiTrip> {
    if rows == [] then []
    else
      var k := |rows| - 1;
      Proj(s, rows[..k]) + if rows[k].0 == s then [rows[k].1] else []
  }

  /** No cancel or timeout, and none of the calls that this fetch makes, here or further down, fails. */
  ghost predicate Reliable(req: Req, env: Env)
    decreases req
  {
    env.interrupt.NoInterrupt? && (Refills(req) ==> ReliableCalls(req.kids, env.calls))
  }

  ghost predicate ReliableCalls(kids: seq<Kid>, calls: seq<CallEnv>)
    decreases kids
  {
    forall i :: 0 <= i < |kids| ==> ReliableCall(kids[i], CallAt(calls, i))
  }

  /** A completed child is not called, and a submitted one is not submitted again. */
  ghost predicate ReliableCall(kid: Kid, ce: CallEnv)
    decreases kid
  {
    kid.progress.completed
    || ((kid.progress.submitted || ce.submitAccepted) && ce.fetch.Replied? && Reliable(kid.remote, ce.fetch.env))
  }

  ghost predicate ReliableRun(sh: Shards, req: Req, calls: seq<Call>) {
    calls == [] ||
    var k := |calls| - 1;
    ReliableRun(sh, req, calls[..k]) && Reliable(Run(sh, req, calls[..k]).req, calls[k].env)
  }
}
