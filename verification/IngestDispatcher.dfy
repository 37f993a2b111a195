/** The FIFO shard queue and the dispatcher that gives each shard to the
    least-loaded worker, with the load bound this greedy rule guarantees. */
module IngestDispatchers {
  import opened Results
  import opened Graph

  datatype ShardAssignment = ShardAssignment(shardId: nat, sourceFile: string, nodeId: NodeId, tripCount: nat,
      fileSizeBytes: nat)

  const TWO_TO_64: nat := 0x1_0000_0000_0000_0000

  class IngestQueue {
    var jobs: seq<ShardAssignment>

    constructor ()
      ensures jobs == []
    {
      jobs := [];
    }

    predicate Empty()
      reads this
    {
      jobs == []
    }

    method PushAll(more: seq<ShardAssignment>)
      modifies this
      ensures jobs == old(jobs) + more
    {
      var i := 0;
      while i < |more|
        invariant i <= |more| && jobs == old(jobs) + more[..i]
      {
        jobs := jobs + [more[i]];
        i := i + 1;
      }
    }

    /** Takes the oldest job. */
    method PopNext() returns (job: Option<ShardAssignment>)
      modifies this
      ensures old(jobs) == [] ==> job.None? && jobs == []
      ensures old(jobs) != [] ==> job == Some(old(jobs)[0]) && jobs == old(jobs)[1..]
    {
      if jobs == [] {
        return None;
      }
      job := Some(jobs[0]);
      jobs := jobs[1..];
    }
  }

  /** Assigned bytes and trips per worker. */
  datatype Loads = Loads(bytes: map<NodeId, nat>, trips: map<NodeId, nat>) {

    /** A worker without an entry has no load. */
    function Bytes(w: NodeId): nat {
      if w in bytes then bytes[w] else 0
    }

    function Trips(w: NodeId): nat {
      if w in trips then trips[w] else 0
    }

    predicate Less(v: NodeId, w: NodeId) {
      Bytes(v) < Bytes(w) || (Bytes(v) == Bytes(w) && Trips(v) < Trips(w))
    }

    /** Adds a shard to a worker; the counters are 64 bits wide. */
    function Add(w: NodeId, job: ShardAssignment): Loads {
      Loads(bytes[w := (Bytes(w) + job.fileSizeBytes) % TWO_TO_64], trips[w := (Trips(w) + job.tripCount) % TWO_TO_64])
    }

    ghost predicate Fits() {
      (forall w :: Bytes(w) <= SIZE_MAX) && (forall w :: Trips(w) <= SIZE_MAX)
    }
  }

  /** `workers[k]` is the first worker of least bytes, then least trips. */
  ghost predicate FirstLeast(workers: seq<NodeId>, loads: Loads, k: nat) {
    && k < |workers|
    && (forall j :: 0 <= j < |workers| ==> !loads.Less(workers[j], workers[k]))
    && (forall j :: 0 <= j < k ==> loads.Less(workers[k], workers[j]))
  }

  function LeastIndex(workers: seq<NodeId>, loads: Loads): (k: nat)
    requires workers != []
    ensures FirstLeast(workers, loads, k)
  {
    var n := |workers| - 1;
    if n == 0 then 0
    else
      var k := LeastIndex(workers[..n], loads);
      if loads.Less(workers[n], workers[k]) then n else k
  }

  lemma FirstLeastIsUnique(workers: seq<NodeId>, loads: Loads, k: nat, l: nat)
    requires FirstLeast(workers, loads, k) && FirstLeast(workers, loads, l)
    ensures k == l
  {
    var lBeforeK, kBeforeL := loads.Less(workers[l], workers[k]), loads.Less(workers[k], workers[l]);
  }

  lemma AddFits(loads: Loads, w: NodeId, job: ShardAssignment)
    requires loads.Fits()
    ensures loads.Add(w, job).Fits()
  {
    var after := loads.Add(w, job);
    forall v ensures after.Bytes(v) <= SIZE_MAX && after.Trips(v) <= SIZE_MAX {
      assert v != w ==> after.Bytes(v) == loads.Bytes(v) && after.Trips(v) == loads.Trips(v);
    }
  }

  class IngestDispatcher {
    var workerNodeIds: seq<NodeId>
    var loads: Loads

    constructor ()
      ensures workerNodeIds == [] && loads == Loads(map[], map[])
    {
      workerNodeIds, loads := [], Loads(map[], map[]);
    }

    /** Every load starts at zero. */
    method SetWorkers(ids: seq<NodeId>)
      modifies this
      ensures workerNodeIds == ids && loads.Fits()
      ensures forall w :: loads.Bytes(w) == 0 && loads.Trips(w) == 0
    {
      workerNodeIds := ids;
      loads := Loads(map[], map[]);
      var i := 0;
      while i < |ids|
        invariant i <= |ids| && workerNodeIds == ids
        invariant (forall w :: w in loads.bytes ==> loads.bytes[w] == 0)
          && (forall w :: w in loads.trips ==> loads.trips[w] == 0)
      {
        loads := Loads(loads.bytes[ids[i] := 0], loads.trips[ids[i] := 0]);
        i := i + 1;
      }
    }

    /** The argmin loop with its sentinels finds the first least-loaded worker. */
    method SelectLeastLoadedWorker() returns (best: NodeId)
      requires workerNodeIds != [] && loads.Fits()
      ensures best == workerNodeIds[LeastIndex(workerNodeIds, loads)]
    {
      best := workerNodeIds[0];
      ghost var k := 0;
      var lowestBytes, lowestTrips := SIZE_MAX, SIZE_MAX;
      var i := 0;
      while i < |workerNodeIds|
        invariant i <= |workerNodeIds| && k < |workerNodeIds| && best == workerNodeIds[k] && k <= i
        invariant lowestBytes <= SIZE_MAX && lowestTrips <= SIZE_MAX
        invariant (lowestBytes == SIZE_MAX && lowestTrips == SIZE_MAX && k == 0)
          || (k < i && lowestBytes == loads.Bytes(best) && lowestTrips == loads.Trips(best))
        invariant forall j :: 0 <= j < i ==> lowestBytes <= loads.Bytes(workerNodeIds[j])
        invariant forall j :: 0 <= j < i && loads.Bytes(workerNodeIds[j]) == lowestBytes ==>
          lowestTrips <= loads.Trips(workerNodeIds[j])
        invariant forall j :: 0 <= j < k ==> loads.Less(best, workerNodeIds[j])
      {
        var w := workerNodeIds[i];
        var assignedBytes, assignedTrips := loads.Bytes(w), loads.Trips(w);
        var hasLowerByteLoad := assignedBytes < lowestBytes;
        var hasSameBytesButFewerTrips := assignedBytes == lowestBytes && assignedTrips < lowestTrips;
        if hasLowerByteLoad || hasSameBytesButFewerTrips {
          best, k, lowestBytes, lowestTrips := w, i, assignedBytes, assignedTrips;
        }
        i := i + 1;
      }
      FirstLeastIsUnique(workerNodeIds, loads, k, LeastIndex(workerNodeIds, loads));
    }

    /** Pops the oldest shard and gives it to the least-loaded worker. */
    method AssignNext(queue: IngestQueue) returns (shard: Option<ShardAssignment>)
      requires loads.Fits()
      modifies this`loads, queue
      ensures loads.Fits()
      ensures workerNodeIds == [] ==> shard.None? && queue.jobs == old(queue.jobs) && loads == old(loads)
      ensures workerNodeIds != [] && old(queue.jobs) == [] ==> shard.None? && queue.jobs == [] && loads == old(loads)
      ensures workerNodeIds != [] && old(queue.jobs) != [] ==>
        shard == Some(old(queue.jobs)[0].(nodeId := workerNodeIds[LeastIndex(workerNodeIds, old(loads))]))
      ensures workerNodeIds != [] && old(queue.jobs) != [] ==>
        queue.jobs == old(queue.jobs)[1..]
            && loads == old(loads).Add(workerNodeIds[LeastIndex(workerNodeIds, old(loads))], old(queue.jobs)[0])
    {
      if workerNodeIds == [] {
        return None;
      }
      var next := queue.PopNext();
      if next.None? {
        return None;
      }
      var selected := SelectLeastLoadedWorker();
      var job := next.value.(nodeId := selected);
      AddFits(loads, selected, job);
      loads := loads.Add(selected, job);
      shard := Some(job);
    }
  }

  // ----- whole runs of the dispatcher

  datatype Dispatched = Dispatched(handed: seq<ShardAssignment>, loads: Loads)

  /** What repeated `AssignNext` hands out for the queued jobs, oldest first, and the loads it ends with. */
  function Dispatch(workers: seq<NodeId>, start: Loads, jobs: seq<ShardAssignment>): (r: Dispatched)
    requires workers != []
    ensures |r.handed| == |jobs|
  {
    if jobs == [] then Dispatched([], start)
    else
      var n := |jobs| - 1;
      var before := Dispatch(workers, start, jobs[..n]);
      var w := workers[LeastIndex(workers, before.loads)];
      Dispatched(before.handed + [jobs[n].(nodeId := w)], before.loads.Add(w, jobs[n]))
  }

  function TotalBytes(jobs: seq<ShardAssignment>): nat {
    if jobs == [] then 0 else TotalBytes(jobs[..|jobs| - 1]) + jobs[|jobs| - 1].fileSizeBytes
  }

  function LargestShard(jobs: seq<ShardAssignment>): (r: nat)
    ensures forall j :: 0 <= j < |jobs| ==> jobs[j].fileSizeBytes <= r
    ensures jobs != [] ==> exists j :: 0 <= j < |jobs| && jobs[j].fileSizeBytes == r
  {
    if jobs == [] then 0
    else
      var n := |jobs| - 1;
      var m, last := LargestShard(jobs[..n]), jobs[n].fileSizeBytes;
      assert forall j :: 0 <= j < n ==> jobs[j] == jobs[..n][j];
      if m < last then last else m
  }

  /** Bytes of the shards handed to `w`. */
  function BytesOf(handed: seq<ShardAssignment>, w: NodeId): nat {
    if handed == [] then 0
    else
      var last := handed[|handed| - 1];
      BytesOf(handed[..|handed| - 1], w) + if last.nodeId == w then last.fileSizeBytes else 0
  }

  /** Trips of the shards handed to `w`. */
  function TripsOf(handed: seq<ShardAssignment>, w: NodeId): nat {
    if handed == [] then 0
    else
      var last := handed[|handed| - 1];
      TripsOf(handed[..|handed| - 1], w) + if last.nodeId == w then last.tripCount else 0
  }

  lemma HandedAppend(handed: seq<ShardAssignment>, job: ShardAssignment, w: NodeId)
    ensures BytesOf(handed + [job], w) == BytesOf(handed, w) + if job.nodeId == w then job.fileSizeBytes else 0
    ensures TripsOf(handed + [job], w) == TripsOf(handed, w) + if job.nodeId == w then job.tripCount else 0
  {
    assert (handed + [job])[..|handed|] == handed;
  }

  /** 64-bit addition loses nothing that the sum modulo 2^64 has. */
  lemma WrapsOnce(a: nat, b: nat)
    ensures (a % TWO_TO_64 + b) % TWO_TO_64 == (a + b) % TWO_TO_64
  {
  }

  lemma AddedLoads(loads: Loads, v: NodeId, job: ShardAssignment, w: NodeId)
    ensures loads.Add(v, job).Bytes(w)
         == if v == w then (loads.Bytes(w) + job.fileSizeBytes) % TWO_TO_64 else loads.Bytes(w)
    ensures loads.Add(v, job).Trips(w)
         == if v == w then (loads.Trips(w) + job.tripCount) % TWO_TO_64 else loads.Trips(w)
  {
  }

  /** The counters of every worker are the bytes and the trips of the shards handed to it, in 64 bits. */
  lemma {:induction false} LoadsAreSums(workers: seq<NodeId>, start: Loads, jobs: seq<ShardAssignment>, w: NodeId)
    requires workers != [] && start.Bytes(w) == 0 && start.Trips(w) == 0
    ensures var r := Dispatch(workers, start, jobs);
      && r.loads.Bytes(w) == BytesOf(r.handed, w) % 0x1_0000_0000_0000_0000
      && r.loads.Trips(w) == TripsOf(r.handed, w) % 0x1_0000_0000_0000_0000
  {
    if jobs != [] {
      var n := |jobs| - 1;
      var before := Dispatch(workers, start, jobs[..n]);
      var chosen := workers[LeastIndex(workers, before.loads)];
      LoadsAreSums(workers, start, jobs[..n], w);
      SumStep(before, jobs[n], chosen, w);
    }
  }

  lemma SumStep(before: Dispatched, job: ShardAssignment, chosen: NodeId, w: NodeId)
    requires before.loads.Bytes(w) == BytesOf(before.handed, w) % TWO_TO_64
    requires before.loads.Trips(w) == TripsOf(before.handed, w) % TWO_TO_64
    ensures var after := before.loads.Add(chosen, job);
      && after.Bytes(w) == BytesOf(before.handed + [job.(nodeId := chosen)], w) % TWO_TO_64
      && after.Trips(w) == TripsOf(before.handed + [job.(nodeId := chosen)], w) % TWO_TO_64
  {
    HandedAppend(before.handed, job.(nodeId := chosen), w);
    AddedLoads(before.loads, chosen, job, w);
    WrapsOnce(BytesOf(before.handed, w), job.fileSizeBytes);
    WrapsOnce(TripsOf(before.handed, w), job.tripCount);
  }

  function TotalTrips(jobs: seq<ShardAssignment>): nat {
    if jobs == [] then 0 else TotalTrips(jobs[..|jobs| - 1]) + jobs[|jobs| - 1].tripCount
  }

  lemma {:induction false} PartsWithinTotals(handed: seq<ShardAssignment>, jobs: seq<ShardAssignment>, w: NodeId)
    requires |handed| == |jobs| && forall j :: 0 <= j < |jobs| ==> handed[j] == jobs[j].(nodeId := handed[j].nodeId)
    ensures BytesOf(handed, w) <= TotalBytes(jobs) && TripsOf(handed, w) <= TotalTrips(jobs)
  {
    if jobs != [] {
      var n := |jobs| - 1;
      assert handed[n] == jobs[n].(nodeId := handed[n].nodeId);
      PartsWithinTotals(handed[..n], jobs[..n], w);
    }
  }

  lemma {:induction false} HandedPrefix(workers: seq<NodeId>, start: Loads, jobs: seq<ShardAssignment>, j: nat)
    requires workers != [] && j <= |jobs|
    ensures Dispatch(workers, start, jobs[..j]).handed == Dispatch(workers, start, jobs).handed[..j]
    decreases |jobs|
  {
    var n := |jobs| - 1;
    if j <= n {
      assert jobs[..n][..j] == jobs[..j];
      HandedPrefix(workers, start, jobs[..n], j);
    } else {
      assert jobs[..j] == jobs;
    }
  }

  lemma {:induction false} TotalsGrow(jobs: seq<ShardAssignment>, j: nat)
    requires j <= |jobs|
    ensures TotalBytes(jobs[..j]) <= TotalBytes(jobs) && TotalTrips(jobs[..j]) <= TotalTrips(jobs)
    decreases |jobs|
  {
    if j < |jobs| {
      assert jobs[..|jobs| - 1][..j] == jobs[..j];
      TotalsGrow(jobs[..|jobs| - 1], j);
    } else {
      assert jobs[..j] == jobs;
    }
  }

  /** `k` is the first worker that has least bytes, and among those least trips, of the shards handed out so far. */
  ghost predicate FirstLeastOf(workers: seq<NodeId>, handed: seq<ShardAssignment>, k: nat) {
    && k < |workers|
    && (forall i :: 0 <= i < |workers| ==>
          || BytesOf(handed, workers[k]) < BytesOf(handed, workers[i])
          || (BytesOf(handed, workers[k]) == BytesOf(handed, workers[i])
              && TripsOf(handed, workers[k]) <= TripsOf(handed, workers[i])))
    && (forall i :: 0 <= i < k ==>
          || BytesOf(handed, workers[i]) != BytesOf(handed, workers[k])
          || TripsOf(handed, workers[i]) != TripsOf(handed, workers[k]))
  }

  lemma LeastOfLoads(workers: seq<NodeId>, loads: Loads, handed: seq<ShardAssignment>, k: nat)
    requires FirstLeast(workers, loads, k)
    requires forall w :: loads.Bytes(w) == BytesOf(handed, w) && loads.Trips(w) == TripsOf(handed, w)
    ensures FirstLeastOf(workers, handed, k)
  {
    forall i | 0 <= i < |workers|
      ensures BytesOf(handed, workers[k]) < BytesOf(handed, workers[i])
        || (BytesOf(handed, workers[k]) == BytesOf(handed, workers[i])
            && TripsOf(handed, workers[k]) <= TripsOf(handed, workers[i]))
    {
      assert !loads.Less(workers[i], workers[k]);
    }
    forall i | 0 <= i < k
      ensures BytesOf(handed, workers[i]) != BytesOf(handed, workers[k])
        || TripsOf(handed, workers[i]) != TripsOf(handed, workers[k])
    {
      assert loads.Less(workers[k], workers[i]);
    }
  }

  /** While the totals fit, the counters are the sums themselves. */
  lemma LoadsFit(workers: seq<NodeId>, start: Loads, jobs: seq<ShardAssignment>, w: NodeId)
    requires workers != [] && start.Bytes(w) == 0 && start.Trips(w) == 0
    requires TotalBytes(jobs) < TWO_TO_64 && TotalTrips(jobs) < TWO_TO_64
    ensures var r := Dispatch(workers, start, jobs);
      r.loads.Bytes(w) == BytesOf(r.handed, w) && r.loads.Trips(w) == TripsOf(r.handed, w)
  {
    var handed := Dispatch(workers, start, jobs).handed;
    LoadsAreSums(workers, start, jobs, w);
    EveryShardOnceInOrder(workers, start, jobs);
    PartsWithinTotals(handed, jobs, w);
    FitsIn64(BytesOf(handed, w));
    FitsIn64(TripsOf(handed, w));
  }

  lemma FitsIn64(n: nat)
    requires n < TWO_TO_64
    ensures n % 0x1_0000_0000_0000_0000 == n
  {
  }

  lemma HandedLast(workers: seq<NodeId>, start: Loads, jobs: seq<ShardAssignment>, j: nat)
    requires workers != [] && j < |jobs|
    ensures var before := Dispatch(workers, start, jobs[..j]);
      Dispatch(workers, start, jobs).handed[j].nodeId == workers[LeastIndex(workers, before.loads)]
  {
    HandedPrefix(workers, start, jobs, j + 1);
    assert jobs[..j + 1][..j] == jobs[..j];
    assert Dispatch(workers, start, jobs).handed[j] == Dispatch(workers, start, jobs).handed[..j + 1][j];
  }

  /** Who gets a shard: the first worker of least bytes, and at equal bytes of least trips, counted over the shards
      handed out before it, as long as the totals fit 64 bits. */
  lemma ShardGoesToLeastLoaded(workers: seq<NodeId>, start: Loads, jobs: seq<ShardAssignment>, j: nat) returns (k: nat)
    requires workers != [] && j < |jobs| && forall w :: start.Bytes(w) == 0 && start.Trips(w) == 0
    requires TotalBytes(jobs) < 0x1_0000_0000_0000_0000 && TotalTrips(jobs) < 0x1_0000_0000_0000_0000
    ensures var handed := Dispatch(workers, start, jobs).handed;
      FirstLeastOf(workers, handed[..j], k) && handed[j].nodeId == workers[k]
  {
    var before := Dispatch(workers, start, jobs[..j]);
    k := LeastIndex(workers, before.loads);
    HandedPrefix(workers, start, jobs, j);
    HandedLast(workers, start, jobs, j);
    TotalsGrow(jobs, j);
    forall w
      ensures before.loads.Bytes(w) == BytesOf(before.handed, w) && before.loads.Trips(w) == TripsOf(before.handed, w)
    {
      LoadsFit(workers, start, jobs[..j], w);
    }
    LeastOfLoads(workers, before.loads, before.handed, k);
  }

  function SumLoads(workers: seq<NodeId>, loads: Loads): nat {
    if workers == [] then 0 else SumLoads(workers[..|workers| - 1], loads) + loads.Bytes(workers[|workers| - 1])
  }

  lemma {:induction false} SumUnchanged(workers: seq<NodeId>, a: Loads, b: Loads)
    requires forall w :: w in workers ==> a.Bytes(w) == b.Bytes(w)
    ensures SumLoads(workers, a) == SumLoads(workers, b)
  {
    if workers != [] {
      SumUnchanged(workers[..|workers| - 1], a, b);
    }
  }

  lemma {:induction false} SumGrows(workers: seq<NodeId>, a: Loads, b: Loads, k: nat, p: nat)
    requires NoDuplicates(workers) && k < |workers|
    requires b.Bytes(workers[k]) == a.Bytes(workers[k]) + p
    requires forall w :: w in workers && w != workers[k] ==> a.Bytes(w) == b.Bytes(w)
    ensures SumLoads(workers, b) == SumLoads(workers, a) + p
  {
    var n := |workers| - 1;
    if k == n {
      SumUnchanged(workers[..n], a, b);
    } else {
      SumGrows(workers[..n], a, b, k, p);
    }
  }

  /** The least load is at most the average. */
  lemma {:induction false} LeastAtMostAverage(workers: seq<NodeId>, loads: Loads, least: nat)
    requires forall w :: w in workers ==> least <= loads.Bytes(w)
    ensures |workers| * least <= SumLoads(workers, loads)
  {
    if workers != [] {
      LeastAtMostAverage(workers[..|workers| - 1], loads, least);
      assert |workers| * least == (|workers| - 1) * least + least;
    }
  }

  lemma {:induction false} OneLoadWithinSum(workers: seq<NodeId>, loads: Loads, k: nat)
    requires k < |workers|
    ensures loads.Bytes(workers[k]) <= SumLoads(workers, loads)
  {
    if k < |workers| - 1 {
      OneLoadWithinSum(workers[..|workers| - 1], loads, k);
    }
  }

  lemma {:induction false} NoLoad(workers: seq<NodeId>, loads: Loads)
    requires forall w :: loads.Bytes(w) == 0
    ensures SumLoads(workers, loads) == 0
  {
    if workers != [] {
      NoLoad(workers[..|workers| - 1], loads);
    }
  }

  /** The bound on one worker's load, in multiples of the number of workers. */
  ghost predicate WithinBound(m: nat, load: nat, total: nat, largest: nat)
    requires m > 0
  {
    m * load <= total + (m - 1) * largest
  }

  lemma BoundIsMonotone(m: nat, load: nat, total: nat, total': nat, largest: nat, largest': nat)
    requires m > 0 && WithinBound(m, load, total, largest) && total <= total' && largest <= largest'
    ensures WithinBound(m, load, total', largest')
  {
    TimesIsMonotone(largest, largest', m - 1);
    assert (m - 1) * largest == largest * (m - 1) && (m - 1) * largest' == largest' * (m - 1);
  }

  lemma SplitTimes(m: nat, load: nat, p: nat)
    requires m > 0
    ensures m * (load + p) == m * load + p + (m - 1) * p
  {
  }

  lemma BoundAfterLeast(m: nat, load: nat, total: nat, p: nat, largest: nat)
    requires m > 0 && m * load <= total && p <= largest
    ensures WithinBound(m, load + p, total + p, largest)
  {
    TimesIsMonotone(p, largest, m - 1);
    SplitTimes(m, load, p);
    assert (m - 1) * largest == largest * (m - 1) && (m - 1) * p == p * (m - 1);
  }

  lemma {:induction false} EveryShardOnceInOrder(workers: seq<NodeId>, start: Loads, jobs: seq<ShardAssignment>)
    requires workers != []
    ensures var handed := Dispatch(workers, start, jobs).handed;
      forall j :: 0 <= j < |jobs| ==> handed[j] == jobs[j].(nodeId := handed[j].nodeId) && handed[j].nodeId in workers
    decreases |jobs|
  {
    if jobs != [] {
      EveryShardOnceInOrder(workers, start, jobs[..|jobs| - 1]);
    }
  }

  /** What every run keeps: loads are the assigned bytes and add up to all of them, and every load obeys the bound. */
  lemma {:induction false} DispatchKeeps(workers: seq<NodeId>, start: Loads, jobs: seq<ShardAssignment>)
    requires NoDuplicates(workers) && workers != [] && (forall w :: start.Bytes(w) == 0) && TotalBytes(jobs) <= SIZE_MAX
    ensures var r := Dispatch(workers, start, jobs);
      && (forall w :: r.loads.Bytes(w) == BytesOf(r.handed, w))
      && SumLoads(workers, r.loads) == TotalBytes(jobs)
      && (forall w :: w in workers ==> WithinBound(|workers|, r.loads.Bytes(w), TotalBytes(jobs), LargestShard(jobs)))
    decreases |jobs|
  {
    if jobs == [] {
      NoLoad(workers, start);
    } else {
      var n := |jobs| - 1;
      var before := Dispatch(workers, start, jobs[..n]);
      DispatchKeeps(workers, start, jobs[..n]);
      StepKeeps(workers, jobs, before.handed, before.loads);
    }
  }

  lemma StepKeeps(workers: seq<NodeId>, jobs: seq<ShardAssignment>, handed: seq<ShardAssignment>, before: Loads)
    requires NoDuplicates(workers) && workers != [] && |handed| + 1 == |jobs| && TotalBytes(jobs) <= SIZE_MAX
    requires forall w :: before.Bytes(w) == BytesOf(handed, w)
    requires SumLoads(workers, before) == TotalBytes(jobs[..|jobs| - 1])
    requires forall w :: w in workers ==>
      WithinBound(|workers|, before.Bytes(w), TotalBytes(jobs[..|jobs| - 1]), LargestShard(jobs[..|jobs| - 1]))
    ensures var n := |jobs| - 1;
      var chosen := workers[LeastIndex(workers, before)];
      var end := before.Add(chosen, jobs[n]);
      && (forall w :: end.Bytes(w) == BytesOf(handed + [jobs[n].(nodeId := chosen)], w))
      && SumLoads(workers, end) == TotalBytes(jobs)
      && (forall w :: w in workers ==> WithinBound(|workers|, end.Bytes(w), TotalBytes(jobs), LargestShard(jobs)))
  {
    var n := |jobs| - 1;
    var k := LeastIndex(workers, before);
    var m, p, chosen := |workers|, jobs[n].fileSizeBytes, workers[k];
    var end := before.Add(chosen, jobs[n]);
    OneLoadWithinSum(workers, before, k);
    assert end.Bytes(chosen) == before.Bytes(chosen) + p;
    assert forall w :: w != chosen ==> end.Bytes(w) == before.Bytes(w);
    forall w ensures end.Bytes(w) == BytesOf(handed + [jobs[n].(nodeId := chosen)], w) {
      HandedAppend(handed, jobs[n].(nodeId := chosen), w);
    }
    SumGrows(workers, before, end, k, p);
    forall w | w in workers ensures before.Bytes(chosen) <= before.Bytes(w) {
      var j :| 0 <= j < |workers| && workers[j] == w;
      assert !before.Less(workers[j], workers[k]);
    }
    LeastAtMostAverage(workers, before, before.Bytes(chosen));
    forall w | w in workers ensures WithinBound(m, end.Bytes(w), TotalBytes(jobs), LargestShard(jobs)) {
      if w == chosen {
        BoundAfterLeast(m, before.Bytes(chosen), TotalBytes(jobs[..n]), p, LargestShard(jobs));
      } else {
        BoundIsMonotone(m, before.Bytes(w), TotalBytes(jobs[..n]), TotalBytes(jobs), LargestShard(jobs[..n]),
            LargestShard(jobs));
      }
    }
  }

  // ----- comparison with any other assignment

  /** Bytes that assignment `a` (a worker number per shard) gives to worker number `k`. */
  function LoadUnder(jobs: seq<ShardAssignment>, a: seq<nat>, k: nat): nat
    requires |a| == |jobs|
  {
    if jobs == [] then 0
    else
      var n := |jobs| - 1;
      LoadUnder(jobs[..n], a[..n], k) + if a[n] == k then jobs[n].fileSizeBytes else 0
  }

  function SumUnder(jobs: seq<ShardAssignment>, a: seq<nat>, m: nat): nat
    requires |a| == |jobs|
  {
    if m == 0 then 0 else SumUnder(jobs, a, m - 1) + LoadUnder(jobs, a, m - 1)
  }

  lemma {:induction false} SumUnderStep(jobs: seq<ShardAssignment>, a: seq<nat>, m: nat)
    requires |a| == |jobs| > 0
    ensures var n := |jobs| - 1;
      SumUnder(jobs, a, m) == SumUnder(jobs[..n], a[..n], m) + if a[n] < m then jobs[n].fileSizeBytes else 0
  {
    if m > 0 {
      SumUnderStep(jobs, a, m - 1);
    }
  }

  lemma {:induction false} SumUnderNothing(m: nat)
    ensures SumUnder([], [], m) == 0
  {
    if m > 0 {
      SumUnderNothing(m - 1);
    }
  }

  lemma {:induction false} EveryAssignmentCarriesAll(jobs: seq<ShardAssignment>, a: seq<nat>, m: nat)
    requires |a| == |jobs| && forall j :: 0 <= j < |a| ==> a[j] < m
    ensures SumUnder(jobs, a, m) == TotalBytes(jobs)
    decreases |jobs|
  {
    if jobs == [] {
      SumUnderNothing(m);
    } else {
      var n := |jobs| - 1;
      EveryAssignmentCarriesAll(jobs[..n], a[..n], m);
      SumUnderStep(jobs, a, m);
    }
  }

  lemma {:induction false} SumUnderWithin(jobs: seq<ShardAssignment>, a: seq<nat>, m: nat, best: nat)
    requires |a| == |jobs| && forall k :: 0 <= k < m ==> LoadUnder(jobs, a, k) <= best
    ensures SumUnder(jobs, a, m) <= m * best
  {
    if m > 0 {
      SumUnderWithin(jobs, a, m - 1, best);
      assert m * best == (m - 1) * best + best;
    }
  }

  lemma {:induction false} LargestWithin(jobs: seq<ShardAssignment>, a: seq<nat>, m: nat, best: nat)
    requires |a| == |jobs| && (forall j :: 0 <= j < |a| ==> a[j] < m)
    requires forall k :: 0 <= k < m ==> LoadUnder(jobs, a, k) <= best
    ensures LargestShard(jobs) <= best
    decreases |jobs|
  {
    if jobs != [] {
      var n := |jobs| - 1;
      forall k | 0 <= k < m ensures LoadUnder(jobs[..n], a[..n], k) <= best {
        assert LoadUnder(jobs, a, k) <= best;
      }
      LargestWithin(jobs[..n], a[..n], m, best);
      assert LoadUnder(jobs, a, a[n]) <= best;
    }
  }

  lemma {:induction false} TwiceBest(m: nat, load: nat, total: nat, largest: nat, best: nat)
    requires m > 0 && WithinBound(m, load, total, largest) && total <= m * best && largest <= best
    ensures m * load <= (2 * m - 1) * best
  {
    BoundIsMonotone(m, load, total, m * best, largest, best);
    assert (2 * m - 1) * best == m * best + (m - 1) * best;
  }

  /** Greedy dispatch is within 2 - 1/m of the best: if any assignment of the same
      shards to the m workers keeps every worker within `best` bytes, the dispatcher's
      largest load L satisfies m * L <= (2m - 1) * best. */
  lemma {:induction false} GreedyWithinTwiceBest(workers: seq<NodeId>, start: Loads, jobs: seq<ShardAssignment>,
      a: seq<nat>, best: nat, w: NodeId)
    requires NoDuplicates(workers) && w in workers && (forall v :: start.Bytes(v) == 0) && TotalBytes(jobs) <= SIZE_MAX
    requires |a| == |jobs| && (forall j :: 0 <= j < |a| ==> a[j] < |workers|)
    requires forall k :: 0 <= k < |workers| ==> LoadUnder(jobs, a, k) <= best
    ensures |workers| * Dispatch(workers, start, jobs).loads.Bytes(w) <= (2 * |workers| - 1) * best
  {
    var m := |workers|;
    DispatchKeeps(workers, start, jobs);
    EveryAssignmentCarriesAll(jobs, a, m);
    SumUnderWithin(jobs, a, m, best);
    LargestWithin(jobs, a, m, best);
    TwiceBest(m, Dispatch(workers, start, jobs).loads.Bytes(w), TotalBytes(jobs), LargestShard(jobs), best);
  }

  // ----- the class runs the dispatch function

  /** Draining a queue with `AssignNext` hands out exactly what `Dispatch` says. */
  method DispatchAll(d: IngestDispatcher, queue: IngestQueue) returns (handed: seq<ShardAssignment>)
    requires d.workerNodeIds != [] && d.loads.Fits()
    modifies d`loads, queue
    ensures queue.jobs == [] && d.loads.Fits()
    ensures Dispatched(handed, d.loads) == Dispatch(d.workerNodeIds, old(d.loads), old(queue.jobs))
  {
    handed := [];
    ghost var jobs, start, n := queue.jobs, d.loads, 0;
    while !queue.Empty()
      invariant d.loads.Fits() && n <= |jobs| && queue.jobs == jobs[n..]
      invariant Dispatched(handed, d.loads) == Dispatch(d.workerNodeIds, start, jobs[..n])
      decreases |jobs| - n
    {
      assert jobs[..n + 1][..n] == jobs[..n];
      var next := d.AssignNext(queue);
      handed := handed + [next.value];
      n := n + 1;
    }
    assert jobs[..n] == jobs;
  }
}
