/** Two-pass parallel selection: count per thread, prefix sums, then fill one
    shared vector. The threads' steps may interleave in any order. */
module ParallelSelect {
  import opened Results
  import opened LocalScan

  /** Where row `i` goes in the output if it matches: the number of matches before it. */
  function Rank(rows: seq<Row>, i: nat): nat
    requires i <= |rows|
  {
    |Matching(rows, 0, i)|
  }

  lemma RankStep(rows: seq<Row>, i: nat)
    requires i < |rows|
    ensures Rank(rows, i + 1) == Rank(rows, i) + if rows[i].Some? then 1 else 0
  {
    MatchingSplits(rows, 0, i, i + 1);
    assert Matching(rows, i + 1, i + 1) == [];
  }

  /** Matching rows have different places, in row order. */
  lemma {:induction false} RankGrows(rows: seq<Row>, i: nat, j: nat)
    requires i < j <= |rows|
    ensures Rank(rows, i) <= Rank(rows, j)
    ensures rows[i].Some? ==> Rank(rows, i) < Rank(rows, j)
    decreases j - i
  {
    RankStep(rows, i);
    if i + 1 < j {
      RankGrows(rows, i + 1, j);
    }
  }

  /** The serial result has each matching row at its rank. */
  lemma SerialAtRank(rows: seq<Row>, i: nat)
    requires i < |rows| && rows[i].Some?
    ensures Rank(rows, i) < |Matching(rows, 0, |rows|)| && Matching(rows, 0, |rows|)[Rank(rows, i)] == i
  {
    MatchingSplits(rows, 0, i, |rows|);
    assert Matching(rows, i, |rows|)[0] == i;
  }

  /** The rows [lo, hi) that one thread scans. */
  datatype Block = Block(lo: nat, hi: nat)

  /** Row blocks of the threads: consecutive, in thread order, covering all rows. */
  ghost predicate Partition(blocks: seq<Block>, n: nat) {
    && |blocks| >= 1 && blocks[0].lo == 0 && blocks[|blocks| - 1].hi == n
    && (forall t :: 0 <= t < |blocks| ==> blocks[t].lo <= blocks[t].hi <= n)
    && (forall t, u :: 0 <= t < u < |blocks| ==> blocks[t].hi <= blocks[u].lo)
    && (forall t, u :: 0 <= t < |blocks| && 0 <= u < |blocks| && u == t + 1 ==> blocks[t].hi == blocks[u].lo)
  }

  method ExecuteSerial(rows: seq<Row>) returns (out: seq<nat>)
    ensures out == Matching(rows, 0, |rows|)
  {
    out := [];
    var i := 0;
    while i < |rows|
      invariant i <= |rows| && out == Matching(rows, 0, i)
    {
      MatchingSplits(rows, 0, i, i + 1);
      assert Matching(rows, i + 1, i + 1) == [];
      if rows[i].Some? {
        out := out + [i];
      }
      i := i + 1;
    }
  }

  method CountSerial(rows: seq<Row>) returns (c: nat)
    ensures c == |Matching(rows, 0, |rows|)|
  {
    c := 0;
    var i := 0;
    while i < |rows|
      invariant i <= |rows| && c == Rank(rows, i)
    {
      RankStep(rows, i);
      if rows[i].Some? {
        c := c + 1;
      }
      i := i + 1;
    }
  }

  /** First pass of one thread: the matches in its block. */
  method CountBlock(rows: seq<Row>, lo: nat, hi: nat) returns (local: nat)
    requires lo <= hi <= |rows|
    ensures Rank(rows, lo) + local == Rank(rows, hi)
  {
    local := 0;
    var i := lo;
    while i < hi
      invariant lo <= i <= hi && Rank(rows, lo) + local == Rank(rows, i)
    {
      RankStep(rows, i);
      if rows[i].Some? {
        local := local + 1;
      }
      i := i + 1;
    }
  }

  /** Every count is the number of matches in its block. */
  ghost predicate Counted(rows: seq<Row>, blocks: seq<Block>, counts: seq<nat>) {
    && |counts| <= |blocks|
    && (forall t :: 0 <= t < |counts| ==> blocks[t].lo <= |rows| && blocks[t].hi <= |rows|)
    && (forall t :: 0 <= t < |counts| ==> Rank(rows, blocks[t].lo) + counts[t] == Rank(rows, blocks[t].hi))
  }

  /** Every thread's region starts at the rank of its block. */
  ghost predicate OffsetsAtRanks(rows: seq<Row>, blocks: seq<Block>, offsets: seq<nat>) {
    && |offsets| <= |blocks|
    && forall t :: 0 <= t < |offsets| ==> blocks[t].lo <= |rows| && offsets[t] == Rank(rows, blocks[t].lo)
  }

  /** Prefix sums of the counts. */
  method PrefixOffsets(rows: seq<Row>, blocks: seq<Block>, counts: seq<nat>) returns (offsets: seq<nat>, total: nat)
    requires Partition(blocks, |rows|) && |counts| == |blocks| && Counted(rows, blocks, counts)
    ensures |offsets| == |blocks| && OffsetsAtRanks(rows, blocks, offsets)
    ensures total == |Matching(rows, 0, |rows|)|
  {
    offsets, total := [], 0;
    var t := 0;
    while t < |counts|
      invariant t == |offsets| <= |counts|
      invariant total == Rank(rows, if t < |blocks| then blocks[t].lo else |rows|)
      invariant OffsetsAtRanks(rows, blocks, offsets)
    {
      offsets := offsets + [total];
      total := total + counts[t];
      t := t + 1;
    }
  }

  /** The output slot of matching row `i`: written once with `i` if the row is done, else not at all. */
  ghost predicate SlotOk(rows: seq<Row>, contents: seq<nat>, writes: seq<nat>, i: nat, done: bool)
    requires i < |rows|
  {
    var r := Rank(rows, i);
    r < |contents| && r < |writes| && writes[r] == (if done then 1 else 0) && (done ==> contents[r] == i)
  }

  ghost predicate Slots(rows: seq<Row>, contents: seq<nat>, writes: seq<nat>, done: set<nat>) {
    && |contents| == |writes| == |Matching(rows, 0, |rows|)|
    && forall i :: 0 <= i < |rows| && rows[i].Some? ==> SlotOk(rows, contents, writes, i, i in done)
  }

  /** Thread `t` stands at row `next[t]`, its write position is that row's rank, and of its block exactly the rows
      before it are done. */
  ghost predicate Cursors(rows: seq<Row>, blocks: seq<Block>, next: seq<nat>, pos: seq<nat>, done: set<nat>) {
    && Partition(blocks, |rows|) && |next| == |pos| == |blocks|
    && (forall t :: 0 <= t < |blocks| ==> blocks[t].lo <= next[t] <= blocks[t].hi && pos[t] == Rank(rows, next[t]))
    && (forall t, i :: 0 <= t < |blocks| && blocks[t].lo <= i < blocks[t].hi ==> (i in done <==> i < next[t]))
  }

  lemma {:induction false} NothingDone(rows: seq<Row>, contents: seq<nat>, writes: seq<nat>)
    requires |contents| == |writes| == |Matching(rows, 0, |rows|)| && forall k :: 0 <= k < |writes| ==> writes[k] == 0
    ensures Slots(rows, contents, writes, {})
  {
    forall i | 0 <= i < |rows| && rows[i].Some? ensures SlotOk(rows, contents, writes, i, false) {
      SerialAtRank(rows, i);
    }
  }

  /** Writing row `i` to its rank touches no other row's slot. */
  lemma RowWritten(rows: seq<Row>, contents: seq<nat>, writes: seq<nat>, done: set<nat>, i: nat)
    requires Slots(rows, contents, writes, done) && i < |rows| && rows[i].Some? && i !in done
    ensures Rank(rows, i) < |contents|
    ensures Slots(rows, contents[Rank(rows, i) := i], writes[Rank(rows, i) := writes[Rank(rows, i)] + 1], done + {i})
  {
    assert SlotOk(rows, contents, writes, i, false);
    var r := Rank(rows, i);
    forall j | 0 <= j < |rows| && rows[j].Some?
      ensures SlotOk(rows, contents[r := i], writes[r := writes[r] + 1], j, j in done + {i})
    {
      assert SlotOk(rows, contents, writes, j, j in done);
      if i < j { RankGrows(rows, i, j); } else if j < i { RankGrows(rows, j, i); }
    }
  }

  lemma RowSkipped(rows: seq<Row>, contents: seq<nat>, writes: seq<nat>, done: set<nat>, i: nat)
    requires Slots(rows, contents, writes, done) && i < |rows| && rows[i].None?
    ensures Slots(rows, contents, writes, done + {i})
  {
    forall j | 0 <= j < |rows| && rows[j].Some? ensures SlotOk(rows, contents, writes, j, j in done + {i}) {
      assert SlotOk(rows, contents, writes, j, j in done);
    }
  }

  lemma ThreadAdvanced(rows: seq<Row>, blocks: seq<Block>, next: seq<nat>, pos: seq<nat>, done: set<nat>, t: nat,
      p: nat)
    requires Cursors(rows, blocks, next, pos, done) && t < |blocks| && next[t] < blocks[t].hi
    requires p == Rank(rows, next[t] + 1)
    ensures next[t] !in done
    ensures Cursors(rows, blocks, next[t := next[t] + 1], pos[t := p], done + {next[t]})
  {
  }

  /** The block that row `i` belongs to. */
  lemma BlockOf(blocks: seq<Block>, n: nat, i: nat) returns (t: nat)
    requires Partition(blocks, n) && i < n
    ensures t < |blocks| && blocks[t].lo <= i < blocks[t].hi
  {
    t := 0;
    while blocks[t].hi <= i
      invariant t < |blocks| && blocks[t].lo <= i
      decreases |blocks| - t
    {
      assert t != |blocks| - 1;
      t := t + 1;
    }
  }

  /** Once every thread is at the end of its block, the vector is the serial result and every slot was written
      exactly once. */
  lemma AllDoneIsSerial(rows: seq<Row>, blocks: seq<Block>, next: seq<nat>, pos: seq<nat>, contents: seq<nat>,
      writes: seq<nat>, done: set<nat>)
    requires Cursors(rows, blocks, next, pos, done) && Slots(rows, contents, writes, done)
    requires forall t :: 0 <= t < |blocks| ==> next[t] == blocks[t].hi
    ensures contents == Matching(rows, 0, |rows|)
    ensures forall k :: 0 <= k < |writes| ==> writes[k] == 1
  {
    var serial := Matching(rows, 0, |rows|);
    forall k | 0 <= k < |serial| ensures contents[k] == serial[k] && writes[k] == 1 {
      MatchingIsExact(rows, 0, |rows|);
      var i := serial[k];
      var t := BlockOf(blocks, |rows|, i);
      assert i in done;
      SerialAtRank(rows, i);
      assert SlotOk(rows, contents, writes, i, true);
      assert Rank(rows, i) == k;
    }
  }

  /** The second pass: the shared output vector and every thread's loop variables. */
  class FillPass {
    const rows: seq<Row>
    const blocks: seq<Block>
    const out: array<nat>
    var next: seq<nat>
    var pos: seq<nat>
    ghost var writes: seq<nat>
    ghost var done: set<nat>

    ghost predicate Valid()
      reads this, out
    {
      Cursors(rows, blocks, next, pos, done) && Slots(rows, out[..], writes, done)
    }

    constructor (rows: seq<Row>, blocks: seq<Block>, offsets: seq<nat>, total: nat)
      requires Partition(blocks, |rows|) && |offsets| == |blocks| && OffsetsAtRanks(rows, blocks, offsets)
      requires total == |Matching(rows, 0, |rows|)|
      ensures Valid() && fresh(out)
      ensures this.rows == rows && this.blocks == blocks
      ensures forall t :: 0 <= t < |blocks| ==> next[t] == blocks[t].lo
    {
      this.rows, this.blocks := rows, blocks;
      out := new nat[total];
      next := seq(|blocks|, t requires 0 <= t < |blocks| => blocks[t].lo);
      pos := offsets;
      writes := seq(total, _ => 0);
      done := {};
      new;
      NothingDone(rows, out[..], writes);
    }

    ghost predicate Finished()
      reads this
    {
      |next| == |blocks| && forall t :: 0 <= t < |blocks| ==> next[t] == blocks[t].hi
    }

    /** The shared write `out[pos++] = i` of thread `t`: in bounds, and the slots of other rows keep their contents. */
    method Emit(t: nat, i: nat)
      requires Slots(rows, out[..], writes, done) && i < |rows| && rows[i].Some? && i !in done
      requires t < |pos| && pos[t] == Rank(rows, i)
      modifies this`pos, this`writes, out
      ensures Slots(rows, out[..], writes, done + {i})
      ensures pos == old(pos)[t := old(pos)[t] + 1]
    {
      RowWritten(rows, out[..], writes, done, i);
      ghost var before, p := out[..], pos[t];
      out[pos[t]] := i;
      assert out[..] == before[p := i];
      writes := writes[pos[t] := writes[pos[t]] + 1];
      pos := pos[t := pos[t] + 1];
    }

    /** The body of thread `t`'s loop for row `i`: a matching row is written, any other is passed over. */
    method TakeRow(t: nat, i: nat)
      requires Slots(rows, out[..], writes, done) && i < |rows| && i !in done
      requires t < |pos| && pos[t] == Rank(rows, i)
      modifies this`pos, this`writes, out
      ensures Slots(rows, out[..], writes, done + {i})
      ensures pos == old(pos)[t := Rank(rows, i + 1)]
    {
      RankStep(rows, i);
      if rows[i].Some? {
        Emit(t, i);
      } else {
        RowSkipped(rows, out[..], writes, done, i);
      }
    }

    /** One loop iteration of thread `t`; a finished thread does nothing. */
    method Step(t: nat)
      requires Valid() && t < |blocks|
      modifies this, out
      ensures Valid()
      ensures next == old(next)[t := if old(next)[t] < blocks[t].hi then old(next)[t] + 1 else old(next)[t]]
    {
      var i := next[t];
      if i == blocks[t].hi {
        return;
      }
      ThreadAdvanced(rows, blocks, next, pos, done, t, Rank(rows, i + 1));
      TakeRow(t, i);
      done := done + {i};
      next := next[t := i + 1];
    }
  }

  /** How many steps a schedule gives to thread `t`. */
  function Turns(schedule: seq<nat>, t: nat): nat {
    if schedule == [] then 0
    else Turns(schedule[..|schedule| - 1], t) + if schedule[|schedule| - 1] == t then 1 else 0
  }

  /** Where thread `t` stands after a schedule: it advances with each of its turns, up to the end of its block. */
  function Reached(b: Block, turns: nat): nat {
    if b.lo + turns <= b.hi then b.lo + turns else b.hi
  }

  ghost predicate AllReached(blocks: seq<Block>, schedule: seq<nat>, next: seq<nat>) {
    |next| == |blocks| && forall t :: 0 <= t < |blocks| ==> next[t] == Reached(blocks[t], Turns(schedule, t))
  }

  /** A schedule lets every thread finish. */
  ghost predicate Fair(blocks: seq<Block>, schedule: seq<nat>) {
    forall t :: 0 <= t < |blocks| ==> Turns(schedule, t) >= blocks[t].hi - blocks[t].lo
  }

  lemma OneMoreTurn(blocks: seq<Block>, schedule: seq<nat>, k: nat, next: seq<nat>, next': seq<nat>)
    requires forall t :: 0 <= t < |blocks| ==> blocks[t].lo <= blocks[t].hi
    requires k < |schedule| && schedule[k] < |blocks| && AllReached(blocks, schedule[..k], next)
    requires var t := schedule[k]; next' == next[t := if next[t] < blocks[t].hi then next[t] + 1 else next[t]]
    ensures AllReached(blocks, schedule[..k + 1], next')
  {
    assert schedule[..k + 1][..k] == schedule[..k];
  }

  /** Counts, offsets, and then any interleaving of the threads' fill steps. Every thread has advanced by
      exactly its turns; all of them have finished if and only if the schedule gave each enough turns, and then
      the result equals the serial one and every slot was written exactly once. */
  method ExecuteParallel(rows: seq<Row>, blocks: seq<Block>, schedule: seq<nat>) returns (pass: FillPass)
    requires Partition(blocks, |rows|)
    requires forall k :: 0 <= k < |schedule| ==> schedule[k] < |blocks|
    ensures pass.Valid() && pass.rows == rows && pass.blocks == blocks
    ensures AllReached(blocks, schedule, pass.next)
    ensures pass.Finished() <==> Fair(blocks, schedule)
    ensures Fair(blocks, schedule) ==>
      pass.out[..] == Matching(rows, 0, |rows|) && forall k :: 0 <= k < |pass.writes| ==> pass.writes[k] == 1
  {
    var counts: seq<nat> := [];
    var t := 0;
    while t < |blocks|
      invariant t == |counts| <= |blocks| && Counted(rows, blocks, counts)
    {
      var local := CountBlock(rows, blocks[t].lo, blocks[t].hi);
      counts := counts + [local];
      t := t + 1;
    }
    var offsets, total := PrefixOffsets(rows, blocks, counts);
    pass := new FillPass(rows, blocks, offsets, total);
    FillAll(pass, schedule);
    if pass.Finished() {
      AllDoneIsSerial(rows, blocks, pass.next, pass.pos, pass.out[..], pass.writes, pass.done);
    }
  }

  /** The second pass under a schedule. */
  method FillAll(pass: FillPass, schedule: seq<nat>)
    requires pass.Valid() && forall k :: 0 <= k < |schedule| ==> schedule[k] < |pass.blocks|
    requires forall t :: 0 <= t < |pass.blocks| ==> pass.next[t] == pass.blocks[t].lo
    modifies pass, pass.out
    ensures pass.Valid() && AllReached(pass.blocks, schedule, pass.next)
    ensures pass.Finished() <==> Fair(pass.blocks, schedule)
  {
    var k := 0;
    while k < |schedule|
      invariant k <= |schedule| && pass.Valid() && AllReached(pass.blocks, schedule[..k], pass.next)
    {
      ghost var next := pass.next;
      pass.Step(schedule[k]);
      OneMoreTurn(pass.blocks, schedule, k, next, pass.next);
      k := k + 1;
    }
    assert schedule[..k] == schedule;
  }
}
