/** On any overlay, also where nodes are asked several times: what the client receives from a source
    is an interleaving of as many scans of its shard as it was asked, each in scan order. */
module ProtocolOrder {
  import opened Results
  import opened Graph
  import opened LocalScan
  import opened Forwarding
  import opened Protocol
  import opened ProtocolInvariants
  import opened ProtocolDelivery
  import opened Renaming

  // ----- every position of a plan gets a name of its own

  /** The mark of child `i`; no mark is the beginning of another. */
  function Mark(i: nat): (r: string)
    ensures |r| == i + 1 && r[i] == '0' && forall j :: 0 <= j < i ==> r[j] == '1'
  {
    seq(i, _ => '1') + "0"
  }

  function Ones(t: string): nat {
    if t != "" && t[0] == '1' then 1 + Ones(t[1..]) else 0
  }

  /** The node at the position that a sequence of marks leads to. */
  function NodeAt(p: Plan, t: string): NodeId
    decreases p
  {
    var k := Ones(t);
    if k < |t| && k < |p.kids| then NodeAt(p.kids[k], t[k + 1..]) else p.node
  }

  /** The plan with every node renamed to the marks of its position. */
  function Tagged(p: Plan, tag: string): Plan
    decreases p
  {
    Plan(tag, TaggedAll(p.kids, tag))
  }

  function TaggedAll(ps: seq<Plan>, tag: string): (r: seq<Plan>)
    ensures |r| == |ps| && forall i :: 0 <= i < |ps| ==> r[i] == Tagged(ps[i], tag + Mark(i))
    decreases ps
  {
    if ps == [] then []
    else
      var k := |ps| - 1;
      TaggedAll(ps[..k], tag) + [Tagged(ps[k], tag + Mark(k))]
  }

  /** The positions at which node `s` is asked. */
  function TagsOf(p: Plan, tag: string, s: NodeId): seq<string>
    decreases p
  {
    (if p.node == s then [tag] else []) + TagsOfAll(p.kids, tag, s)
  }

  function TagsOfAll(ps: seq<Plan>, tag: string, s: NodeId): seq<string>
    decreases ps
  {
    if ps == [] then []
    else
      var k := |ps| - 1;
      TagsOfAll(ps[..k], tag, s) + TagsOf(ps[k], tag + Mark(k), s)
  }

  lemma {:induction false} OnesOfMark(i: nat, t: string)
    ensures Ones(Mark(i) + t) == i
  {
    if i > 0 {
      assert (Mark(i) + t)[1..] == Mark(i - 1) + t;
      OnesOfMark(i - 1, t);
    }
  }

  lemma NodeAtKid(p: Plan, i: nat, t: string)
    requires i < |p.kids|
    ensures NodeAt(p, Mark(i) + t) == NodeAt(p.kids[i], t)
  {
    OnesOfMark(i, t);
    assert (Mark(i) + t)[i + 1..] == t;
  }

  /** `f` finds the nodes of `p` under the names that start with `tag`. */
  ghost predicate Finds(f: Names, p: Plan, tag: string) {
    forall t :: f(tag + t) == NodeAt(p, t)
  }

  lemma FindsBelow(f: Names, p: Plan, tag: string, i: nat)
    requires Finds(f, p, tag) && i < |p.kids|
    ensures Finds(f, p.kids[i], tag + Mark(i))
  {
    forall t ensures f((tag + Mark(i)) + t) == NodeAt(p.kids[i], t) {
      assert (tag + Mark(i)) + t == tag + (Mark(i) + t);
      NodeAtKid(p, i, t);
    }
  }

  lemma FindsSelf(f: Names, p: Plan, tag: string)
    requires Finds(f, p, tag)
    ensures f(tag) == p.node
  {
    assert tag + "" == tag;
    assert NodeAt(p, "") == p.node;
  }

  lemma {:induction false} TaggedRenamesBack(f: Names, p: Plan, tag: string)
    requires Finds(f, p, tag)
    ensures RenamePlan(f, Tagged(p, tag)) == p
    decreases p
  {
    FindsSelf(f, p, tag);
    var kids := RenamePlans(f, TaggedAll(p.kids, tag));
    forall i | 0 <= i < |p.kids| ensures kids[i] == p.kids[i] {
      FindsBelow(f, p, tag, i);
      TaggedRenamesBack(f, p.kids[i], tag + Mark(i));
    }
    assert kids == p.kids;
  }

  /** A name under child `i` has the zero of its mark in the place that tells `i`, and ones before it. */
  lemma MarkRead(tag: string, i: nat, t: string)
    requires tag + Mark(i) <= t
    ensures |tag| + i < |t| && t[|tag| + i] == '0' && forall x :: |tag| <= x < |tag| + i ==> t[x] == '1'
  {
    var start := tag + Mark(i);
    assert forall x :: |tag| <= x < |start| ==> t[x] == start[x] == Mark(i)[x - |tag|];
  }

  lemma MarksApart(tag: string, i: nat, j: nat, t: string)
    requires tag + Mark(i) <= t && tag + Mark(j) <= t
    ensures i == j
  {
    MarkRead(tag, i, t);
    MarkRead(tag, j, t);
  }

  /** Positions have different names, which start with the name of the root. */
  lemma {:induction false} TagsUnique(p: Plan, tag: string, t: string)
    ensures Occ(Tagged(p, tag), t) <= 1
    ensures Occ(Tagged(p, tag), t) > 0 ==> tag <= t
    decreases p, 0
  {
    TagsUniqueBelow(p.kids, tag, t);
    if OccAll(TaggedAll(p.kids, tag), t) > 0 {
      var i :| 0 <= i < |p.kids| && tag + Mark(i) <= t;
      assert tag <= t && tag != t;
    }
  }

  lemma {:induction false} TagsUniqueBelow(ps: seq<Plan>, tag: string, t: string)
    ensures OccAll(TaggedAll(ps, tag), t) <= 1
    ensures OccAll(TaggedAll(ps, tag), t) > 0 ==> exists i :: 0 <= i < |ps| && tag + Mark(i) <= t
    decreases ps, 1
  {
    if ps != [] {
      var k := |ps| - 1;
      assert TaggedAll(ps, tag)[..k] == TaggedAll(ps[..k], tag);
      TagsUniqueBelow(ps[..k], tag, t);
      TagsUnique(ps[k], tag + Mark(k), t);
      if OccAll(TaggedAll(ps[..k], tag), t) > 0 && tag + Mark(k) <= t {
        var i :| 0 <= i < k && tag + Mark(i) <= t;
        MarksApart(tag, i, k, t);
      }
    }
  }

  /** A node is asked at as many positions as it occurs in the plan, and the positions listed for it are exactly
      those. */
  lemma {:induction false} TagsCount(p: Plan, tag: string, s: NodeId)
    ensures |TagsOf(p, tag, s)| == Occ(p, s)
    decreases p, 0
  {
    TagsCountBelow(p.kids, tag, s);
  }

  lemma {:induction false} TagsCountBelow(ps: seq<Plan>, tag: string, s: NodeId)
    ensures |TagsOfAll(ps, tag, s)| == OccAll(ps, s)
    decreases ps, 1
  {
    if ps != [] {
      var k := |ps| - 1;
      TagsCountBelow(ps[..k], tag, s);
      TagsCount(ps[k], tag + Mark(k), s);
    }
  }

  lemma {:induction false} TagsListed(f: Names, p: Plan, tag: string, s: NodeId, t: string)
    requires Finds(f, p, tag)
    ensures multiset(TagsOf(p, tag, s))[t] == if f(t) == s then Occ(Tagged(p, tag), t) else 0
    decreases p, 0
  {
    FindsSelf(f, p, tag);
    TagsListedBelow(f, p, p.kids, tag, s, t);
  }

  lemma {:induction false} TagsListedBelow(f: Names, p: Plan, ps: seq<Plan>, tag: string, s: NodeId, t: string)
    requires Finds(f, p, tag) && ps <= p.kids
    ensures multiset(TagsOfAll(ps, tag, s))[t] == if f(t) == s then OccAll(TaggedAll(ps, tag), t) else 0
    decreases p, 0, |ps|
  {
    if ps != [] {
      var k := |ps| - 1;
      assert TaggedAll(ps, tag)[..k] == TaggedAll(ps[..k], tag);
      TagsListedBelow(f, p, ps[..k], tag, s, t);
      FindsBelow(f, p, tag, k);
      TagsListed(f, ps[k], tag + Mark(k), s, t);
    }
  }

  lemma EqualsCount(tags: seq<string>, i: nat, j: nat)
    requires i < j < |tags|
    ensures tags[i] == tags[j] ==> multiset(tags)[tags[i]] >= 2
  {
    assert tags == tags[..i] + [tags[i]] + tags[i + 1..j] + [tags[j]] + tags[j + 1..];
  }

  /** The listed positions of `s` are different, and they are the names that occur and that `f` leads to `s`. */
  lemma PositionsOf(f: Names, p: Plan, s: NodeId)
    requires Finds(f, p, "")
    ensures NoDuplicates(TagsOf(p, "", s)) && |TagsOf(p, "", s)| == Occ(p, s)
    ensures forall t :: t in TagsOf(p, "", s) <==> f(t) == s && Occ(Tagged(p, ""), t) == 1
  {
    var tags := TagsOf(p, "", s);
    TagsCount(p, "", s);
    forall t
      ensures multiset(tags)[t] == (if f(t) == s then Occ(Tagged(p, ""), t) else 0) <= 1
      ensures t in tags <==> multiset(tags)[t] > 0
    {
      TagsListed(f, p, "", s, t);
      TagsUnique(p, "", t);
    }
    forall i, j | 0 <= i < j < |tags| ensures tags[i] != tags[j] {
      EqualsCount(tags, i, j);
    }
  }

  // ----- the rows of a source

  /** Every row of source `s` belongs to one of `n` parts, and each part is, in the order of delivery, a
      prefix of `all`, or all of it if `exact`. `marked` tells the part of every row. */
  ghost predicate IsSplit(rows: Labelled, s: NodeId, n: nat, all: seq<TaxiTrip>, exact: bool, parts: seq<string>,
      marked: Labelled) {
    && |parts| == n && NoDuplicates(parts) && |marked| == |rows|
    && (forall i :: 0 <= i < |rows| ==> marked[i].1 == rows[i].1 && (rows[i].0 == s <==> marked[i].0 in parts))
    && (forall t :: t in parts ==> Proj(t, marked) <= all && (exact ==> Proj(t, marked) == all))
  }

  ghost predicate SplitsInto(rows: Labelled, s: NodeId, n: nat, all: seq<TaxiTrip>, exact: bool) {
    exists parts, marked :: IsSplit(rows, s, n, all, exact, parts, marked)
  }

  lemma WeakerSplit(rows: Labelled, s: NodeId, n: nat, all: seq<TaxiTrip>, exact: bool, exact': bool)
    requires SplitsInto(rows, s, n, all, exact) && (exact' ==> exact)
    ensures SplitsInto(rows, s, n, all, exact')
  {
    var parts, marked :| IsSplit(rows, s, n, all, exact, parts, marked);
    assert IsSplit(rows, s, n, all, exact', parts, marked);
  }

  lemma {:induction false} LabelInProj(rows: Labelled, i: nat)
    requires i < |rows|
    ensures Proj(rows[i].0, rows) != []
  {
    if i < |rows| - 1 {
      LabelInProj(rows[..|rows| - 1], i);
    }
  }

  /** What a run of a plan with one position per name gives for that name. */
  lemma PositionDelivers(sh: Shards, q: Plan, calls: seq<Call>, t: NodeId)
    requires Occ(q, t) <= 1
    ensures var run := Run(sh, Start(q), calls);
      var got := Proj(t, Delivered(run.replies));
      && (Occ(q, t) == 0 ==> got == [])
      && got <= AllTrips(sh(t))
      && (Occ(q, t) == 1 && EndedWell(sh, q, calls) ==> got == AllTrips(sh(t)))
  {
    var run := Run(sh, Start(q), calls);
    RunDelivers(sh, q, calls, t);
    StartPending(sh, q, t);
    PrefixOfMore(Proj(t, Delivered(run.replies)), PendingOf(sh, run.req, t), PendingOf(sh, Start(q), t));
    if EndedWell(sh, q, calls) {
      var k := |calls| - 1;
      StartIsWellFormed(sh, q);
      RunKeeps(sh, Start(q), calls[..k]);
      DoneLeavesNothing(sh, Run(sh, Start(q), calls[..k]).req, calls[k].maxRows, calls[k].env, t);
    }
  }

  /** The run is over and nothing failed. */
  ghost predicate EndedWell(sh: Shards, p: Plan, calls: seq<Call>) {
    calls != [] && ReliableRun(sh, Start(p), calls) && Run(sh, Start(p), calls).replies[|calls| - 1].done
  }

  lemma TaggedRun(f: Names, sh: Shards, p: Plan, calls: seq<Call>)
    requires Finds(f, p, "")
    ensures Delivered(Run(sh, Start(p), calls).replies)
         == RenameRows(f, Delivered(Run(Behind(sh, f), Start(Tagged(p, "")), calls).replies))
    ensures EndedWell(sh, p, calls) ==> EndedWell(Behind(sh, f), Tagged(p, ""), calls)
  {
    var q := Tagged(p, "");
    TaggedRenamesBack(f, p, "");
    StartRenames(f, q);
    RunRenames(f, sh, Start(q), calls);
    DeliveredRenames(f, Run(Behind(sh, f), Start(q), calls).replies);
    if EndedWell(sh, p, calls) {
      ReliableRunRenames(f, sh, Start(q), calls);
    }
  }

  /** Order on every overlay: whatever fails, the rows received from a source split into as many
      parts as the source was asked, and each part is a prefix of its matching rows in scan order, and all of them
      once the run is over and nothing failed. */
  lemma {:induction false} RowsAreInterleavedScans(sh: Shards, ov: Overlay, entry: NodeId, calls: seq<Call>, s: NodeId)
    ensures var p := ClientPlan(ov, entry);
      SplitsInto(Delivered(Run(sh, Start(p), calls).replies), s, Occ(p, s), AllTrips(sh(s)), EndedWell(sh, p, calls))
  {
    var p := ClientPlan(ov, entry);
    var f: Names := t => NodeAt(p, t);
    forall t ensures f("" + t) == NodeAt(p, t) {
      assert "" + t == t;
    }
    TaggedRun(f, sh, p, calls);
    PositionsOf(f, p, s);
    var marked := Delivered(Run(Behind(sh, f), Start(Tagged(p, "")), calls).replies);
    PartsArePrefixes(f, sh, p, calls, s);
    var exact := EndedWell(sh, p, calls);
    assert IsSplit(RenameRows(f, marked), s, Occ(p, s), AllTrips(sh(s)), exact, TagsOf(p, "", s), marked);
  }

  lemma PartsArePrefixes(f: Names, sh: Shards, p: Plan, calls: seq<Call>, s: NodeId)
    requires Finds(f, p, "")
    ensures var marked := Delivered(Run(Behind(sh, f), Start(Tagged(p, "")), calls).replies);
      && (forall i :: 0 <= i < |marked| ==> (f(marked[i].0) == s <==> marked[i].0 in TagsOf(p, "", s)))
      && (forall t :: t in TagsOf(p, "", s) ==>
            Proj(t, marked) <= AllTrips(sh(s)) && (EndedWell(sh, p, calls) ==> Proj(t, marked) == AllTrips(sh(s))))
  {
    var q := Tagged(p, "");
    var marked := Delivered(Run(Behind(sh, f), Start(q), calls).replies);
    PositionsOf(f, p, s);
    TaggedRun(f, sh, p, calls);
    forall t ensures Occ(q, t) <= 1 {
      TagsUnique(p, "", t);
    }
    forall i | 0 <= i < |marked| ensures Occ(q, marked[i].0) == 1 {
      PositionDelivers(Behind(sh, f), q, calls, marked[i].0);
      LabelInProj(marked, i);
    }
    forall t | t in TagsOf(p, "", s)
      ensures Proj(t, marked) <= AllTrips(sh(s)) && (EndedWell(sh, p, calls) ==> Proj(t, marked) == AllTrips(sh(s)))
    {
      PositionDelivers(Behind(sh, f), q, calls, t);
    }
  }
}
