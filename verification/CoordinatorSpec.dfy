/** A coordinator on values: its request table, the load that its records put on it,
    and what every call does to the table. */
module CoordinatorSpec {
  import opened Results
  import opened ChunkSizing
  import opened Protocol
  import opened RemoteQueryClients

  // ----- the load a fetch runs under

  /** The load beside one record: active requests, and rows cached by the other records. */
  datatype Load = Load(active: nat, elsewhere: nat) {

    /** The pressure while the record itself caches `window` rows. */
    function At(window: nat): real {
      PressureRatio(active, elsewhere + window)
    }
  }

  /** The calls of one round: each sees the pressure of a window that has grown by the chunks before it. */
  function RoundCalls(load: Load, window: nat, sh: Shards, kids: seq<Kid>, maxRows: nat,
      net: seq<NetCall>): (r: seq<CallEnv>)
    ensures |r| == |kids|
  {
    if kids == [] then []
    else
      var k := |kids| - 1;
      var before := RoundCalls(load, window, sh, kids[..k], maxRows, net);
      before + [NextCall(load, window + |PullKids(sh, kids[..k], maxRows, before).1.trips|, NetAt(net, k))]
  }

  function NextCall(load: Load, window: nat, nc: NetCall): CallEnv {
    CallEnv(load.At(window), nc.submit.Accepted?, nc.fetch)
  }

  /** Everything one refill depends on besides the record: the load at each step and the network. */
  function RoundEnv(load: Load, sh: Shards, req: Req, maxRows: nat, net: seq<NetCall>): Env {
    RoundEnvFrom(load, sh, req, maxRows, net, if WindowRead(req) then 0 else |req.agg.trips|)
  }

  /** The same, for a window that holds `window` rows when the round begins. */
  function RoundEnvFrom(load: Load, sh: Shards, req: Req, maxRows: nat, net: seq<NetCall>, window: nat): Env {
    var pressure := load.At(|req.agg.trips|);
    if req.round % 2 == 1 then
      var calls := RoundCalls(load, window, sh, req.kids, maxRows, net);
      Env(NoInterrupt, pressure, load.At(window + |PullKids(sh, req.kids, maxRows, calls).1.trips|), calls)
    else
      var own := PullLocal(sh, req.node, req.local, maxRows, load.At(window)).1;
      Env(NoInterrupt, pressure, load.At(window), RoundCalls(load, window + |own.trips|, sh, req.kids, maxRows, net))
  }

  /** Everything one fetch depends on besides the record. */
  function EnvOf(load: Load, sh: Shards, req: Req, maxRows: nat, net: seq<NetCall>): Env {
    var pressure := load.At(|req.agg.trips|);
    if Refills(req) then RoundEnv(load, sh, req, AdaptiveChunk(maxRows, pressure), net)
    else Env(NoInterrupt, pressure, 0.0, [])
  }

  // ----- a refill, step by step

  /** A child and the window after the child's turn. */
  function ChildPulled(sh: Shards, kid: Kid, agg: QueryResult, maxRows: nat, ce: CallEnv): (Kid, QueryResult) {
    var (after, partial) := PullKid(sh, kid, maxRows, ce);
    (after, agg.Merge(partial))
  }

  /** The record once a window that was read is dropped. */
  function Emptied(req: Req): Req {
    if WindowRead(req) then req.(agg := req.agg.Cleared(), cursor := 0) else req
  }

  /** The record after one chunk of the local shard. */
  function LocalPulled(sh: Shards, req: Req, maxRows: nat, pressure: real): Req {
    var (local, own) := PullLocal(sh, req.node, req.local, maxRows, pressure);
    req.(local := local, agg := req.agg.Merge(own))
  }

  /** The record after one chunk of every child. */
  function KidsPulled(sh: Shards, req: Req, maxRows: nat, load: Load, net: seq<NetCall>): Req {
    var (kids, gathered) :=
        PullKids(sh, req.kids, maxRows, RoundCalls(load, |req.agg.trips|, sh, req.kids, maxRows, net));
    req.(kids := kids, agg := req.agg.Merge(gathered))
  }

  /** The local shard and the children, in the order of the round. */
  function BothPulled(sh: Shards, req: Req, maxRows: nat, load: Load, net: seq<NetCall>): Req {
    if req.round % 2 == 1 then
      var first := KidsPulled(sh, req, maxRows, load, net);
      LocalPulled(sh, first, maxRows, load.At(|first.agg.trips|))
    else
      KidsPulled(sh, LocalPulled(sh, req, maxRows, load.At(|req.agg.trips|)), maxRows, load, net)
  }

  lemma KidsFirst(sh: Shards, req: Req, maxRows: nat, load: Load, net: seq<NetCall>, mid: Req, after: Req)
    requires req.round % 2 == 1 && mid == KidsPulled(sh, req, maxRows, load, net)
    requires after == LocalPulled(sh, mid, maxRows, load.At(|mid.agg.trips|))
    ensures after == BothPulled(sh, req, maxRows, load, net)
  {
  }

  lemma LocalFirst(sh: Shards, req: Req, maxRows: nat, load: Load, net: seq<NetCall>, mid: Req, after: Req)
    requires req.round % 2 != 1 && mid == LocalPulled(sh, req, maxRows, load.At(|req.agg.trips|))
    requires after == KidsPulled(sh, mid, maxRows, load, net)
    ensures after == BothPulled(sh, req, maxRows, load, net)
  {
  }

  /** The record after a round: the next round is due, and without open workers the request is completed. */
  function RoundEnded(req: Req): Req {
    req.(round := req.round + 1, phase := if AllCompleted(req) then Completed else req.phase)
  }

  /** Both workers' chunks, merged into the window in the order of the round. */
  function Joined(req: Req, here: (Progress, QueryResult), below: (seq<Kid>, QueryResult)): Req {
    req.(local := here.0, kids := below.0,
         agg := if req.round % 2 == 1 then req.agg.Merge(below.1).Merge(here.1)
             else req.agg.Merge(here.1).Merge(below.1))
  }

  lemma FilledIsJoined(req: Req, here: (Progress, QueryResult), below: (seq<Kid>, QueryResult))
    ensures Filled(req, here, below) == RoundEnded(Joined(Emptied(req), here, below))
  {
  }

  lemma MergedLength(q: QueryResult, r: QueryResult)
    ensures |q.Merge(r).trips| == |q.trips| + |r.trips|
  {
  }

  lemma BothPulledJoins(sh: Shards, req: Req, maxRows: nat, load: Load, net: seq<NetCall>)
    ensures var env := RoundEnvFrom(load, sh, req, maxRows, net, |req.agg.trips|);
      BothPulled(sh, req, maxRows, load, net)
        == Joined(req, PullLocal(sh, req.node, req.local, maxRows, env.localPressure),
            PullKids(sh, req.kids, maxRows, env.calls))
  {
    if req.round % 2 == 1 {
      var calls := RoundCalls(load, |req.agg.trips|, sh, req.kids, maxRows, net);
      MergedLength(req.agg, PullKids(sh, req.kids, maxRows, calls).1);
    } else {
      MergedLength(req.agg, PullLocal(sh, req.node, req.local, maxRows, load.At(|req.agg.trips|)).1);
    }
  }

  /** Dropping a read window, both workers' chunks and the end of the round make up the protocol's pull. */
  lemma PullAssembles(sh: Shards, req: Req, maxRows: nat, load: Load, net: seq<NetCall>, both: Req, after: Req)
    requires both == BothPulled(sh, Emptied(req), maxRows, load, net) && after == RoundEnded(both)
    ensures after == Pull(sh, req, maxRows, RoundEnv(load, sh, req, maxRows, net))
  {
    var env := RoundEnv(load, sh, req, maxRows, net);
    FilledIsJoined(req, PullLocal(sh, req.node, req.local, maxRows, env.localPressure),
        PullKids(sh, req.kids, maxRows, env.calls));
    BothPulledJoins(sh, Emptied(req), maxRows, load, net);
  }

  /** Rows up to `end` handed out, the cursor there, and `done` if that was all, is what serving means. */
  lemma RowsHandedOut(req: Req, limit: nat, end: nat, after: Req, reply: Reply)
    requires !WindowRead(req) && end == req.cursor + Min(limit, |req.agg.trips| - req.cursor)
    requires reply.trips == req.agg.trips[req.cursor..end]
    requires reply.sources == if |req.agg.sources| >= end then req.agg.sources[req.cursor..end]
      else Repeat(req.node, end - req.cursor)
    requires reply.done <==> end >= |req.agg.trips| && AllCompleted(req)
    requires after == req.(cursor := end, phase := if reply.done then Completed else req.phase)
    ensures (after, reply) == Serve(req, limit)
  {
  }

  /** A live fetch refills if the window is read and then serves. */
  lemma LiveFetch(sh: Shards, req: Req, maxRows: nat, load: Load, net: seq<NetCall>)
    requires !Stopped(req)
    ensures var limit := AdaptiveChunk(maxRows, load.At(|req.agg.trips|));
      Fetch(sh, req, maxRows, EnvOf(load, sh, req, maxRows, net))
        == Serve(if Refills(req) then Pull(sh, req, limit, RoundEnv(load, sh, req, limit, net)) else req, limit)
  {
  }
}
