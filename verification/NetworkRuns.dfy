/** Any number of clients at any entry nodes of one network: each of them sees a run of its own tree of requests. */
module NetworkRuns {
  import opened Results
  import opened Graph
  import opened LocalScan
  import opened Forwarding
  import opened Protocol
  import opened ProtocolInvariants
  import opened ProtocolOrder
  import opened ProtocolReliability
  import opened LocalQueryEngine
  import opened RemoteQueryClients
  import opened Network
  import opened NetworkCalls

  /** A client: where it asked, what for, and its fetches and their replies so far. */
  datatype Client = Client(entry: NodeId, filter: Filter, handle: Handle, calls: seq<Call>, replies: seq<Reply>)

  datatype World = World(sys: Tables, clients: seq<Client>)

  /** A new client asks at some node, or an earlier one fetches; `env` is what the nodes and the network do
      meanwhile. */
  datatype Deed = Ask(entry: NodeId, filter: Filter) | FetchNext(client: nat, maxRows: nat, env: Env)

  const NEW_WORLD := World(Tables(map[], _ => 1), [])

  function Do(data: Data, ov: Overlay, w: World, deed: Deed): World {
    match deed
    case Ask(entry, filter) =>
      World(w.sys.Accept(ov, entry, filter, {}),
          w.clients + [Client(entry, filter, (entry, w.sys.next(entry)), [], [])])
    case FetchNext(i, maxRows, env) =>
      if i >= |w.clients| then w
      else
        var c := w.clients[i];
        var (sys, reply) := FetchAt(data, ov, w.sys, c.handle, ClientPlan(ov, c.entry), maxRows, env);
        World(sys, w.clients[i := c.(calls := c.calls + [Call(maxRows, env)], replies := c.replies + [reply])])
  }

  function DoAll(data: Data, ov: Overlay, deeds: seq<Deed>): World {
    if deeds == [] then NEW_WORLD else Do(data, ov, DoAll(data, ov, deeds[..|deeds| - 1]), deeds[|deeds| - 1])
  }

  // ----- every client has its own tree

  function RunOf(data: Data, ov: Overlay, c: Client): Outcome {
    Run(data.Shards(c.filter), Start(ClientPlan(ov, c.entry)), c.calls)
  }

  function FootOf(data: Data, ov: Overlay, sys: Tables, c: Client): set<Handle> {
    Foot(sys.records, c.handle, RunOf(data, ov, c).req)
  }

  /** The client's records hold the tree that its run has come to, and its replies are the run's. */
  ghost predicate ClientServed(data: Data, ov: Overlay, sys: Tables, c: Client) {
    && Holds(ov, sys.records, c.handle, c.filter, RunOf(data, ov, c).req)
    && c.replies == RunOf(data, ov, c).replies
  }

  ghost predicate SeparateFeet(data: Data, ov: Overlay, sys: Tables, c: Client, d: Client) {
    FootOf(data, ov, sys, c) !! FootOf(data, ov, sys, d)
  }

  ghost predicate AllServed(data: Data, ov: Overlay, w: World) {
    && w.sys.Valid()
    && (forall i {:trigger ClientServed(data, ov, w.sys, w.clients[i])} ::
          0 <= i < |w.clients| ==> ClientServed(data, ov, w.sys, w.clients[i]))
    && (forall i, j {:trigger SeparateFeet(data, ov, w.sys, w.clients[i], w.clients[j])} ::
          0 <= i < |w.clients| && 0 <= j < |w.clients| && i != j ==>
              SeparateFeet(data, ov, w.sys, w.clients[i], w.clients[j]))
  }

  /** A client whose records a move leaves alone is served as before. */
  lemma StillServed(data: Data, ov: Overlay, sys: Tables, sys': Tables, c: Client, foot: set<Handle>,
      foot': set<Handle>)
    requires ClientServed(data, ov, sys, c) && Moved(sys, sys', foot, foot') && FootOf(data, ov, sys, c) !! foot
    ensures ClientServed(data, ov, sys', c) && FootOf(data, ov, sys', c) == FootOf(data, ov, sys, c)
    ensures FootOf(data, ov, sys', c) !! foot'
  {
    var req := RunOf(data, ov, c).req;
    FootWithin(ov, sys.records, c.handle, c.filter, req);
    FrameHolds(ov, sys.records, sys'.records, c.handle, c.filter, req);
  }

  lemma AskServes(data: Data, ov: Overlay, w: World, entry: NodeId, filter: Filter)
    requires w.sys.Valid()
    ensures var w' := Do(data, ov, w, Ask(entry, filter));
      var c := w'.clients[|w.clients|];
      ClientServed(data, ov, w'.sys, c) && Moved(w.sys, w'.sys, {}, FootOf(data, ov, w'.sys, c))
  {
    assert {} + {entry} == {entry};
    AcceptHolds(ov, w.sys, entry, filter, {});
  }

  lemma FetchServes(data: Data, ov: Overlay, w: World, i: nat, maxRows: nat, env: Env)
    requires w.sys.Valid() && i < |w.clients| && ClientServed(data, ov, w.sys, w.clients[i])
    ensures var w' := Do(data, ov, w, FetchNext(i, maxRows, env));
      && ClientServed(data, ov, w'.sys, w'.clients[i])
      && Moved(w.sys, w'.sys, FootOf(data, ov, w.sys, w.clients[i]), FootOf(data, ov, w'.sys, w'.clients[i]))
  {
    var c := w.clients[i];
    var sh, p := data.Shards(c.filter), ClientPlan(ov, c.entry);
    StartHasPlan(p);
    RunKeepsPlan(sh, Start(p), c.calls);
    var run := RunOf(data, ov, c);
    FetchHolds(data, ov, w.sys, c.handle, c.filter, run.req, maxRows, env);
    RunGrows(sh, Start(p), c.calls, run, Call(maxRows, env));
    var (next, reply) := Fetch(sh, run.req, maxRows, env);
    var c' := Do(data, ov, w, FetchNext(i, maxRows, env)).clients[i];
    assert c' == c.(calls := c.calls + [Call(maxRows, env)], replies := c.replies + [reply]);
    assert RunOf(data, ov, c') == Outcome(next, run.replies + [reply]);
  }

  /** Client `i` is served as before, apart from what client `k` has now. */
  ghost predicate Kept(data: Data, ov: Overlay, w: World, w': World, k: nat, i: nat)
    requires i < |w.clients| && i < |w'.clients| && k < |w'.clients|
  {
    && ClientServed(data, ov, w'.sys, w'.clients[i])
    && FootOf(data, ov, w'.sys, w'.clients[i]) == FootOf(data, ov, w.sys, w.clients[i])
    && FootOf(data, ov, w'.sys, w'.clients[i]) !! FootOf(data, ov, w'.sys, w'.clients[k])
  }

  /** Client `k`, new or not, moved within its own records. */
  ghost predicate OneMoved(data: Data, ov: Overlay, w: World, w': World, k: nat) {
    && k <= |w.clients| && |w'.clients| == (if k == |w.clients| then k + 1 else |w.clients|)
    && (forall i :: 0 <= i < |w.clients| && i != k ==> w'.clients[i] == w.clients[i])
    && ClientServed(data, ov, w'.sys, w'.clients[k])
    && Moved(w.sys, w'.sys, if k < |w.clients| then FootOf(data, ov, w.sys, w.clients[k]) else {},
             FootOf(data, ov, w'.sys, w'.clients[k]))
  }

  lemma OtherKept(data: Data, ov: Overlay, w: World, w': World, k: nat, i: nat)
    requires AllServed(data, ov, w) && OneMoved(data, ov, w, w', k) && i < |w.clients| && i != k
    ensures Kept(data, ov, w, w', k, i)
  {
    assert ClientServed(data, ov, w.sys, w.clients[i]);
    assert k < |w.clients| ==> SeparateFeet(data, ov, w.sys, w.clients[i], w.clients[k]);
    var foot: set<Handle> := if k < |w.clients| then FootOf(data, ov, w.sys, w.clients[k]) else {};
    StillServed(data, ov, w.sys, w'.sys, w.clients[i], foot, FootOf(data, ov, w'.sys, w'.clients[k]));
  }

  lemma ClientsApart(data: Data, ov: Overlay, w: World, w': World, k: nat, i: nat, j: nat)
    requires AllServed(data, ov, w) && OneMoved(data, ov, w, w', k) && i < |w'.clients| && j < |w'.clients| && i != j
    ensures SeparateFeet(data, ov, w'.sys, w'.clients[i], w'.clients[j])
  {
    if i != k {
      OtherKept(data, ov, w, w', k, i);
    }
    if j != k {
      OtherKept(data, ov, w, w', k, j);
    }
    if i != k && j != k {
      assert SeparateFeet(data, ov, w.sys, w.clients[i], w.clients[j]);
    }
  }

  /** One client's part moved, or a new client came: all are served if that one is. */
  lemma OthersServed(data: Data, ov: Overlay, w: World, w': World, k: nat)
    requires AllServed(data, ov, w) && OneMoved(data, ov, w, w', k)
    ensures AllServed(data, ov, w')
  {
    forall i | 0 <= i < |w'.clients| ensures ClientServed(data, ov, w'.sys, w'.clients[i]) {
      if i != k {
        OtherKept(data, ov, w, w', k, i);
      }
    }
    forall i, j | 0 <= i < |w'.clients| && 0 <= j < |w'.clients| && i != j
      ensures SeparateFeet(data, ov, w'.sys, w'.clients[i], w'.clients[j])
    {
      ClientsApart(data, ov, w, w', k, i, j);
    }
  }

  lemma DeedServes(data: Data, ov: Overlay, w: World, deed: Deed)
    requires AllServed(data, ov, w)
    ensures AllServed(data, ov, Do(data, ov, w, deed))
  {
    match deed
    case Ask(entry, filter) =>
      AskServes(data, ov, w, entry, filter);
      OthersServed(data, ov, w, Do(data, ov, w, deed), |w.clients|);
    case FetchNext(i, maxRows, env) =>
      if i < |w.clients| {
        assert ClientServed(data, ov, w.sys, w.clients[i]);
        FetchServes(data, ov, w, i, maxRows, env);
        OthersServed(data, ov, w, Do(data, ov, w, deed), i);
      }
  }

  /** The network of separate tables does what the trees say: whatever the clients do, in whatever order and at whatever
      nodes, each client's replies are those of a run of the protocol on its own tree. */
  lemma {:induction false} NetworkRefinesTrees(data: Data, ov: Overlay, deeds: seq<Deed>)
    ensures AllServed(data, ov, DoAll(data, ov, deeds))
  {
    if deeds != [] {
      var k := |deeds| - 1;
      NetworkRefinesTrees(data, ov, deeds[..k]);
      DeedServes(data, ov, DoAll(data, ov, deeds[..k]), deeds[k]);
    }
  }

  /** What every client of the network has, at any moment, on any overlay and whatever fails: from every source as many
      interleaved prefixes of its matching rows, in scan order, as the client's query asked it. */
  lemma {:induction false} EveryClientHasScans(data: Data, ov: Overlay, deeds: seq<Deed>, i: nat, s: NodeId)
    requires i < |DoAll(data, ov, deeds).clients|
    ensures var c := DoAll(data, ov, deeds).clients[i];
      SplitsInto(Delivered(c.replies), s, Occ(ClientPlan(ov, c.entry), s), AllTrips(data.Shards(c.filter)(s)),
                 EndedWell(data.Shards(c.filter), ClientPlan(ov, c.entry), c.calls))
  {
    var w := DoAll(data, ov, deeds);
    var c := w.clients[i];
    NetworkRefinesTrees(data, ov, deeds);
    assert ClientServed(data, ov, w.sys, c);
    RowsAreInterleavedScans(data.Shards(c.filter), ov, c.entry, c.calls, s);
  }
}
