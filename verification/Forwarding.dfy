/** How one query spreads: the tree of sub-requests that visited-list forwarding
    creates, which nodes it covers, and when no node is asked twice. */
module Forwarding {
  import opened Results
  import opened Graph

  /** One request and the sub-requests it sends. */
  datatype Plan = Plan(node: NodeId, kids: seq<Plan>)

  /** The children that the visited list does not exclude, in order. */
  function Scheduled(children: seq<NodeId>, visited: set<NodeId>): (r: seq<NodeId>)
    ensures forall c :: c in r <==> c in children && c !in visited
  {
    if children == [] then []
    else
      var before := Scheduled(children[..|children| - 1], visited);
      var last := children[|children| - 1];
      if last in visited then before else before + [last]
  }

  lemma ScheduledLast(children: seq<NodeId>, visited: set<NodeId>)
    requires children != []
    ensures var n := |children| - 1;
      Scheduled(children, visited)
        == Scheduled(children[..n], visited) + if children[n] in visited then [] else [children[n]]
  {
  }

  /** Targets keep the order of the children. */
  lemma {:induction false} ScheduledInOrder(children: seq<NodeId>, visited: set<NodeId>, a: nat, b: nat)
    returns (i: nat, j: nat)
    requires a < b < |children| && children[a] !in visited && children[b] !in visited
    ensures i < j < |Scheduled(children, visited)|
    ensures Scheduled(children, visited)[i] == children[a] && Scheduled(children, visited)[j] == children[b]
    decreases |children|
  {
    var n := |children| - 1;
    var front := children[..n];
    assert front[a] == children[a];
    if b < n {
      assert front[b] == children[b];
      i, j := ScheduledInOrder(front, visited, a, b);
    } else {
      i := IndexIn(front, visited, a);
      j := |Scheduled(front, visited)|;
    }
    ScheduledLast(children, visited);
  }

  lemma IndexIn(children: seq<NodeId>, visited: set<NodeId>, a: nat) returns (i: nat)
    requires a < |children| && children[a] !in visited
    ensures i < |Scheduled(children, visited)| && Scheduled(children, visited)[i] == children[a]
  {
    assert children[a] in Scheduled(children, visited);
    i :| 0 <= i < |Scheduled(children, visited)| && Scheduled(children, visited)[i] == children[a];
  }

  /** What a request passes on: its own list plus all its outgoing children. */
  function PassedOn(ov: Overlay, n: NodeId, visited: set<NodeId>): set<NodeId> {
    visited + {n} + Elements(Children(ov, n))
  }

  /** The forwarding tree of a request that node `n` handles with this visited list. */
  function ForwardPlan(ov: Overlay, n: NodeId, visited: set<NodeId>): Plan
    decreases Universe(ov) - visited
  {
    var targets := Scheduled(Children(ov, n), visited + {n});
    var passed := PassedOn(ov, n, visited);
    Plan(n, seq(|targets|, i requires 0 <= i < |targets| =>
      PassedOnGrows(ov, n, visited, targets[i]); ForwardPlan(ov, targets[i], passed)))
  }

  lemma PassedOnGrows(ov: Overlay, n: NodeId, visited: set<NodeId>, c: NodeId)
    requires c in Children(ov, n) && c !in visited
    ensures Universe(ov) - PassedOn(ov, n, visited) < Universe(ov) - visited
  {
    assert c in Universe(ov) - visited;
    assert c in PassedOn(ov, n, visited);
  }

  /** The tree of a client query: the entry node marks itself first. */
  function ClientPlan(ov: Overlay, entry: NodeId): Plan {
    ForwardPlan(ov, entry, {entry})
  }

  /** How often a node is asked in a forwarding tree. */
  function Occ(p: Plan, s: NodeId): nat {
    (if p.node == s then 1 else 0) + OccAll(p.kids, s)
  }

  function OccAll(ps: seq<Plan>, s: NodeId): nat {
    if ps == [] then 0 else OccAll(ps[..|ps| - 1], s) + Occ(ps[|ps| - 1], s)
  }

  /** The nodes from the root of a forwarding tree down to one of its requests. */
  ghost predicate PlanPath(p: Plan, path: seq<NodeId>) {
    && |path| > 0
    && path[0] == p.node
    && (|path| > 1 ==> exists i :: 0 <= i < |p.kids| && PlanPath(p.kids[i], path[1..]))
  }

  /** Visited-list forwarding read off the overlay alone: every hop goes to a child that is
      not in the initial list, not earlier on the path, and not a child of an earlier hop. */
  ghost predicate ForwardPath(ov: Overlay, visited: set<NodeId>, path: seq<NodeId>) {
    && IsWalk(ov, path)
    && (forall i :: 0 < i < |path| ==> path[i] !in visited)
    && NoDuplicates(path)
    && (forall i, j :: 0 <= j && j + 1 < i < |path| ==> path[i] !in Children(ov, path[j]))
  }

  ghost predicate SiblingsDistinct(p: Plan) {
    && (forall i, j :: 0 <= i < j < |p.kids| ==> p.kids[i].node != p.kids[j].node)
    && (forall i :: 0 <= i < |p.kids| ==> SiblingsDistinct(p.kids[i]))
  }

  // ----- the forwarding tree and the overlay's forward paths

  lemma ForwardPathTail(ov: Overlay, visited: set<NodeId>, path: seq<NodeId>)
    requires |path| > 1
    ensures ForwardPath(ov, visited, path) <==>
      && path[1] in Scheduled(Children(ov, path[0]), visited + {path[0]})
      && ForwardPath(ov, PassedOn(ov, path[0], visited), path[1..])
  {
    var n, tail := path[0], path[1..];
    var passed := PassedOn(ov, n, visited);
    if path[1] in Scheduled(Children(ov, n), visited + {n}) && ForwardPath(ov, passed, tail) {
      forall i | 0 < i < |path|
        ensures path[i] !in visited && path[i] != n
        ensures i > 1 ==> path[i] !in Children(ov, n)
      {
        assert path[i] == tail[i - 1];
      }
      assert IsWalk(ov, path) by {
        forall i | 0 <= i < |path| - 1 ensures path[i + 1] in Children(ov, path[i]) {
          if i > 0 { assert tail[i] in Children(ov, tail[i - 1]); }
        }
      }
      forall i, j | 0 <= j && j + 1 < i < |path| ensures path[i] !in Children(ov, path[j]) {
        if j > 0 { assert tail[i - 1] !in Children(ov, tail[j - 1]); }
      }
      forall i, j | 0 <= i < j < |path| ensures path[i] != path[j] {
        if i > 0 { assert tail[i - 1] != tail[j - 1]; }
      }
    }
    if ForwardPath(ov, visited, path) {
      assert path[1] != n;
      forall i | 0 < i < |tail| ensures tail[i] !in passed {
        assert path[i + 1] !in Children(ov, path[0]);
      }
    }
  }

  /** The positions of the forwarding tree are exactly the overlay's forward
      paths; in particular no forwarding path repeats a node. */
  lemma {:induction false} TreePositionsAreForwardPaths(ov: Overlay, n: NodeId, visited: set<NodeId>, path: seq<NodeId>)
    ensures PlanPath(ForwardPlan(ov, n, visited), path) <==>
      |path| > 0 && path[0] == n && ForwardPath(ov, visited, path)
    decreases Universe(ov) - visited
  {
    var p := ForwardPlan(ov, n, visited);
    if |path| > 1 && path[0] == n {
      var targets := Scheduled(Children(ov, n), visited + {n});
      var passed := PassedOn(ov, n, visited);
      ForwardPathTail(ov, visited, path);
      forall i | 0 <= i < |targets|
        ensures PlanPath(p.kids[i], path[1..]) <==> path[1] == targets[i] && ForwardPath(ov, passed, path[1..])
      {
        PassedOnGrows(ov, n, visited, targets[i]);
        TreePositionsAreForwardPaths(ov, targets[i], passed, path[1..]);
      }
      if path[1] in targets && ForwardPath(ov, passed, path[1..]) {
        var i :| 0 <= i < |targets| && targets[i] == path[1];
        assert PlanPath(p.kids[i], path[1..]);
      }
    }
  }

  lemma {:induction false} ScheduledDistinct(children: seq<NodeId>, visited: set<NodeId>)
    requires NoDuplicates(children)
    ensures NoDuplicates(Scheduled(children, visited))
  {
    if children != [] {
      ScheduledDistinct(children[..|children| - 1], visited);
    }
  }

  lemma {:induction false} PlanSiblingsDistinct(ov: Overlay, n: NodeId, visited: set<NodeId>)
    requires DistinctChildren(ov)
    ensures SiblingsDistinct(ForwardPlan(ov, n, visited))
    decreases Universe(ov) - visited
  {
    var targets := Scheduled(Children(ov, n), visited + {n});
    ScheduledDistinct(Children(ov, n), visited + {n});
    forall i | 0 <= i < |targets| ensures SiblingsDistinct(ForwardPlan(ov, n, visited).kids[i]) {
      PassedOnGrows(ov, n, visited, targets[i]);
      PlanSiblingsDistinct(ov, targets[i], PassedOn(ov, n, visited));
    }
  }

  // ----- counting requests by counting tree positions

  lemma {:induction false} OccAllAtLeast(ps: seq<Plan>, i: nat, s: NodeId)
    requires i < |ps|
    ensures OccAll(ps, s) >= Occ(ps[i], s)
  {
    if i < |ps| - 1 {
      OccAllAtLeast(ps[..|ps| - 1], i, s);
    }
  }

  lemma {:induction false} OccAllTwo(ps: seq<Plan>, i: nat, j: nat, s: NodeId)
    requires i < j < |ps|
    ensures OccAll(ps, s) >= Occ(ps[i], s) + Occ(ps[j], s)
  {
    if j == |ps| - 1 {
      OccAllAtLeast(ps[..j], i, s);
    } else {
      OccAllTwo(ps[..|ps| - 1], i, j, s);
    }
  }

  /** Where a node that is asked at least once, or at least twice, sits among the siblings. */
  lemma {:induction false} OccAllWhere(ps: seq<Plan>, s: NodeId) returns (i: nat, j: nat)
    requires OccAll(ps, s) >= 1
    ensures i < |ps| && Occ(ps[i], s) >= 1
    ensures OccAll(ps, s) >= 2 ==> Occ(ps[i], s) >= 2 || (i < j < |ps| && Occ(ps[j], s) >= 1)
  {
    var k := |ps| - 1;
    if OccAll(ps[..k], s) == 0 {
      i, j := k, 0;
    } else {
      i, j := OccAllWhere(ps[..k], s);
      if OccAll(ps[..k], s) == 1 && Occ(ps[k], s) >= 1 {
        j := k;
      }
    }
  }

  lemma {:induction false} PositionCounts(p: Plan, path: seq<NodeId>)
    requires PlanPath(p, path)
    ensures Occ(p, path[|path| - 1]) >= 1
    decreases p
  {
    if |path| > 1 {
      var i :| 0 <= i < |p.kids| && PlanPath(p.kids[i], path[1..]);
      PositionCounts(p.kids[i], path[1..]);
      OccAllAtLeast(p.kids, i, path[|path| - 1]);
    }
  }

  lemma {:induction false} CountGivesPosition(p: Plan, s: NodeId) returns (path: seq<NodeId>)
    requires Occ(p, s) >= 1
    ensures PlanPath(p, path) && path[|path| - 1] == s
    decreases p
  {
    if p.node == s {
      path := [s];
    } else {
      var i, _ := OccAllWhere(p.kids, s);
      var tail := CountGivesPosition(p.kids[i], s);
      path := [p.node] + tail;
      assert path[1..] == tail;
    }
  }

  lemma RootAndBelowCount(p: Plan, path: seq<NodeId>)
    requires PlanPath(p, path) && |path| > 1 && path[|path| - 1] == p.node
    ensures Occ(p, p.node) >= 2
  {
    var i :| 0 <= i < |p.kids| && PlanPath(p.kids[i], path[1..]);
    PositionCounts(p.kids[i], path[1..]);
    OccAllAtLeast(p.kids, i, p.node);
  }

  lemma {:induction false} TwoPositionsCount(p: Plan, a: seq<NodeId>, b: seq<NodeId>)
    requires PlanPath(p, a) && PlanPath(p, b) && a != b
    requires a[|a| - 1] == b[|b| - 1]
    ensures Occ(p, a[|a| - 1]) >= 2
    decreases p
  {
    var s := a[|a| - 1];
    if |a| == 1 || |b| == 1 {
      assert (|a| == 1 ==> a == [p.node]) && (|b| == 1 ==> b == [p.node]);
      RootAndBelowCount(p, if |a| == 1 then b else a);
    } else {
      var i :| 0 <= i < |p.kids| && PlanPath(p.kids[i], a[1..]);
      var j :| 0 <= j < |p.kids| && PlanPath(p.kids[j], b[1..]);
      if i == j {
        assert a == [p.node] + a[1..] && b == [p.node] + b[1..];
        TwoPositionsCount(p.kids[i], a[1..], b[1..]);
        OccAllAtLeast(p.kids, i, s);
      } else {
        PositionCounts(p.kids[i], a[1..]);
        PositionCounts(p.kids[j], b[1..]);
        if i < j { OccAllTwo(p.kids, i, j, s); } else { OccAllTwo(p.kids, j, i, s); }
      }
    }
  }

  lemma {:induction false} TwiceGivesTwoPositions(p: Plan, s: NodeId) returns (a: seq<NodeId>, b: seq<NodeId>)
    requires Occ(p, s) >= 2 && SiblingsDistinct(p)
    ensures PlanPath(p, a) && PlanPath(p, b) && a != b
    ensures a[|a| - 1] == s == b[|b| - 1]
    decreases p
  {
    var i, j := OccAllWhere(p.kids, s);
    if p.node == s {
      var tail := CountGivesPosition(p.kids[i], s);
      a, b := [s], [p.node] + tail;
      assert b[1..] == tail;
    } else if Occ(p.kids[i], s) >= 2 {
      var x, y := TwiceGivesTwoPositions(p.kids[i], s);
      a, b := [p.node] + x, [p.node] + y;
      assert a[1..] == x && b[1..] == y;
    } else {
      var x := CountGivesPosition(p.kids[i], s);
      var y := CountGivesPosition(p.kids[j], s);
      a, b := [p.node] + x, [p.node] + y;
      assert a[1..] == x && b[1..] == y;
      assert a[1] != b[1];
    }
  }

  // ----- coverage

  /** Every walk from the entry can be short-cut to a forward path to the same
      node through nodes of the walk: a skipped child was scheduled higher up on the same path. */
  lemma {:induction false} WalkHasForwardPath(ov: Overlay, entry: NodeId, w: seq<NodeId>) returns (path: seq<NodeId>)
    requires IsWalk(ov, w) && w[0] == entry
    ensures ForwardPath(ov, {entry}, path) && path[0] == entry && path[|path| - 1] == w[|w| - 1]
    ensures Elements(path) <= Elements(w)
    decreases |w|
  {
    var k := |w| - 1;
    if k == 0 {
      path := [entry];
    } else {
      var x := w[k];
      var before := WalkHasForwardPath(ov, entry, w[..k]);
      assert forall y :: y in Elements(w[..k]) ==> y in Elements(w);
      path := ShortCut(ov, entry, before, x);
    }
  }

  /** One more step of a walk: either its target is on the path already, or it hangs off the first of its parents on
      the path. */
  lemma ShortCut(ov: Overlay, entry: NodeId, before: seq<NodeId>, x: NodeId) returns (path: seq<NodeId>)
    requires ForwardPath(ov, {entry}, before) && before[0] == entry && x in Children(ov, before[|before| - 1])
    ensures ForwardPath(ov, {entry}, path) && path[0] == entry && path[|path| - 1] == x
    ensures Elements(path) <= Elements(before) + {x}
  {
    if x in before {
      var i :| 0 <= i < |before| && before[i] == x;
      path := before[..i + 1];
    } else {
      var i := FirstParent(ov, before, x);
      path := before[..i + 1] + [x];
    }
  }

  /** The first node of a path that has `x` as a child. */
  lemma FirstParent(ov: Overlay, path: seq<NodeId>, x: NodeId) returns (i: nat)
    requires |path| > 0 && x in Children(ov, path[|path| - 1])
    ensures i < |path| && x in Children(ov, path[i])
    ensures forall j :: 0 <= j < i ==> x !in Children(ov, path[j])
  {
    i := 0;
    while x !in Children(ov, path[i])
      invariant i < |path|
      invariant forall j :: 0 <= j < i ==> x !in Children(ov, path[j])
      decreases |path| - i
    {
      i := i + 1;
    }
  }

  /** Visited-list forwarding asks exactly the nodes reachable from the entry,
      on every overlay, with cycles and shared nodes. */
  lemma ForwardingCoversExactlyReachable(ov: Overlay, entry: NodeId, s: NodeId)
    ensures Occ(ClientPlan(ov, entry), s) >= 1 <==> Reaches(ov, entry, s)
  {
    var p := ClientPlan(ov, entry);
    if Reaches(ov, entry, s) {
      var w :| WalkFromTo(ov, entry, w, s);
      var path := WalkHasForwardPath(ov, entry, w);
      TreePositionsAreForwardPaths(ov, entry, {entry}, path);
      PositionCounts(p, path);
    }
    if Occ(p, s) >= 1 {
      var path := CountGivesPosition(p, s);
      TreePositionsAreForwardPaths(ov, entry, {entry}, path);
      assert WalkFromTo(ov, entry, path, s);
    }
  }

  // ----- at most once

  /** Every walk from the entry to `q` passes through `p`. */
  ghost predicate Guards(ov: Overlay, entry: NodeId, p: NodeId, q: NodeId) {
    forall w :: WalkFromTo(ov, entry, w, q) ==> p in w
  }

  /** `p` is a parent of `d` that lies on every entry walk to every other parent of `d`. */
  ghost predicate GuardingParent(ov: Overlay, entry: NodeId, d: NodeId, p: NodeId) {
    && d in Children(ov, p)
    && forall q :: d in Children(ov, q) && q != p ==> Guards(ov, entry, p, q)
  }

  ghost predicate HasGuardingParent(ov: Overlay, entry: NodeId, d: NodeId) {
    exists p :: GuardingParent(ov, entry, d, p)
  }

  /** The overlay shape under which no node is asked twice. */
  ghost predicate GuardedOverlay(ov: Overlay, entry: NodeId) {
    forall d :: Reaches(ov, entry, d) && d != entry ==> HasGuardingParent(ov, entry, d)
  }

  ghost predicate AskedAtMostOnce(ov: Overlay, entry: NodeId) {
    forall s :: Occ(ClientPlan(ov, entry), s) <= 1
  }

  /** On a forward path to `d` the last hop starts at the guarding parent. */
  lemma LastHopFromGuard(ov: Overlay, entry: NodeId, path: seq<NodeId>, p: NodeId)
    requires ForwardPath(ov, {entry}, path) && path[0] == entry && |path| > 1
    requires GuardingParent(ov, entry, path[|path| - 1], p)
    ensures path[|path| - 2] == p
  {
    var q, before := path[|path| - 2], path[..|path| - 1];
    assert WalkFromTo(ov, entry, before, q);
    assert forall j :: 0 <= j < |before| - 1 ==> path[|path| - 1] !in Children(ov, before[j]);
  }

  lemma ForwardPathPrefix(ov: Overlay, visited: set<NodeId>, path: seq<NodeId>, k: nat)
    requires ForwardPath(ov, visited, path) && 0 < k <= |path|
    ensures ForwardPath(ov, visited, path[..k])
  {
  }

  lemma {:induction false} GuardedPathsUnique(ov: Overlay, entry: NodeId, a: seq<NodeId>, b: seq<NodeId>)
    requires GuardedOverlay(ov, entry)
    requires ForwardPath(ov, {entry}, a) && a[0] == entry
    requires ForwardPath(ov, {entry}, b) && b[0] == entry
    requires a[|a| - 1] == b[|b| - 1]
    ensures a == b
    decreases |a|
  {
    var d := a[|a| - 1];
    if |a| == 1 || |b| == 1 {
      assert d == entry;
      assert |a| == 1 && |b| == 1;
    } else {
      assert WalkFromTo(ov, entry, a, d);
      assert HasGuardingParent(ov, entry, d) by { assert a[0] != a[|a| - 1]; }
      var p :| GuardingParent(ov, entry, d, p);
      LastHopFromGuard(ov, entry, a, p);
      LastHopFromGuard(ov, entry, b, p);
      ForwardPathPrefix(ov, {entry}, a, |a| - 1);
      ForwardPathPrefix(ov, {entry}, b, |b| - 1);
      GuardedPathsUnique(ov, entry, a[..|a| - 1], b[..|b| - 1]);
      assert a == a[..|a| - 1] + [d] && b == b[..|b| - 1] + [d];
    }
  }

  /** A walk to another parent of `d` that avoids `p` yields a forward path to `d` whose last hop does not start at
      `p`. */
  lemma AvoidingWalkAsksAgain(ov: Overlay, entry: NodeId, p: NodeId, w: seq<NodeId>, d: NodeId)
      returns (path: seq<NodeId>)
    requires IsWalk(ov, w) && w[0] == entry && p !in w && d != entry && d != p
    requires d in Children(ov, w[|w| - 1])
    ensures ForwardPath(ov, {entry}, path) && path[0] == entry
    ensures |path| > 1 && path[|path| - 1] == d && path[|path| - 2] != p
  {
    path := WalkHasForwardPath(ov, entry, w + [d]);
    var q := path[|path| - 2];
    assert q in Elements(path);
    assert q in Elements(w + [d]);
  }

  lemma TwoForwardPathsAskTwice(ov: Overlay, entry: NodeId, a: seq<NodeId>, b: seq<NodeId>)
    requires ForwardPath(ov, {entry}, a) && ForwardPath(ov, {entry}, b) && a != b
    requires a[0] == entry == b[0] && a[|a| - 1] == b[|b| - 1]
    ensures Occ(ClientPlan(ov, entry), a[|a| - 1]) >= 2
  {
    TreePositionsAreForwardPaths(ov, entry, {entry}, a);
    TreePositionsAreForwardPaths(ov, entry, {entry}, b);
    TwoPositionsCount(ClientPlan(ov, entry), a, b);
  }

  lemma UnguardedParent(ov: Overlay, entry: NodeId, d: NodeId, p: NodeId) returns (w: seq<NodeId>)
    requires d in Children(ov, p) && !GuardingParent(ov, entry, d, p)
    ensures IsWalk(ov, w) && w[0] == entry && p !in w && d in Children(ov, w[|w| - 1])
  {
    var q :| d in Children(ov, q) && q != p && !Guards(ov, entry, p, q);
    w :| WalkFromTo(ov, entry, w, q) && p !in w;
  }

  lemma UnguardedAskedAgain(ov: Overlay, entry: NodeId, d: NodeId, p: NodeId) returns (path: seq<NodeId>)
    requires d in Children(ov, p) && !GuardingParent(ov, entry, d, p) && d != entry && d != p
    ensures ForwardPath(ov, {entry}, path) && path[0] == entry
    ensures |path| > 1 && path[|path| - 1] == d && path[|path| - 2] != p
  {
    var w := UnguardedParent(ov, entry, d, p);
    path := AvoidingWalkAsksAgain(ov, entry, p, w, d);
  }

  /** A reachable node other than the entry has a forward path, and its last hop is an edge from another node. */
  lemma SomeLastHop(ov: Overlay, entry: NodeId, d: NodeId) returns (path: seq<NodeId>)
    requires Reaches(ov, entry, d) && d != entry
    ensures ForwardPath(ov, {entry}, path) && path[0] == entry && |path| > 1 && path[|path| - 1] == d
    ensures d in Children(ov, path[|path| - 2]) && path[|path| - 2] != d
  {
    var w :| WalkFromTo(ov, entry, w, d);
    path := WalkHasForwardPath(ov, entry, w);
  }

  lemma UnguardedAskedTwice(ov: Overlay, entry: NodeId, d: NodeId)
    requires Reaches(ov, entry, d) && d != entry && !HasGuardingParent(ov, entry, d)
    ensures Occ(ClientPlan(ov, entry), d) >= 2
  {
    var a := SomeLastHop(ov, entry, d);
    var b := UnguardedAskedAgain(ov, entry, d, a[|a| - 2]);
    assert a != b;
    TwoForwardPathsAskTwice(ov, entry, a, b);
  }

  /** No node receives two sub-queries for one client query if and only if
      every reachable node other than the entry has a parent that lies on every
      entry walk to its other parents. Acyclicity is not needed. */
  lemma AtMostOnceIffGuarded(ov: Overlay, entry: NodeId)
    requires DistinctChildren(ov)
    ensures AskedAtMostOnce(ov, entry) <==> GuardedOverlay(ov, entry)
  {
    var p := ClientPlan(ov, entry);
    if GuardedOverlay(ov, entry) {
      forall s ensures Occ(p, s) <= 1 {
        if Occ(p, s) >= 2 {
          PlanSiblingsDistinct(ov, entry, {entry});
          var a, b := TwiceGivesTwoPositions(p, s);
          TreePositionsAreForwardPaths(ov, entry, {entry}, a);
          TreePositionsAreForwardPaths(ov, entry, {entry}, b);
          GuardedPathsUnique(ov, entry, a, b);
        }
      }
    }
    if AskedAtMostOnce(ov, entry) {
      forall d | Reaches(ov, entry, d) && d != entry ensures HasGuardingParent(ov, entry, d) {
        if !HasGuardingParent(ov, entry, d) {
          UnguardedAskedTwice(ov, entry, d);
        }
      }
    }
  }

  // ----- two concrete overlays

  /** A shared grandchild on two separate branches. */
  const DIAMOND: Overlay := map["A" := ["B", "C"], "B" := ["D"], "C" := ["D"]]

  lemma DiamondPath(path: seq<NodeId>)
    requires |path| == 3 && path[0] == "A" && path[2] == "D" && (path[1] == "B" || path[1] == "C")
    ensures ForwardPath(DIAMOND, {"A"}, path)
  {
    assert Children(DIAMOND, "A") == ["B", "C"] && Children(DIAMOND, path[1]) == ["D"];
    assert path[1] in Children(DIAMOND, path[0]) && path[2] in Children(DIAMOND, path[1]);
    assert "A" != "D" && "B" != "D" && "C" != "D" && "A" != "B" && "A" != "C";
  }

  /** The visited list travels down paths only, so the diamond's shared node is asked twice. */
  lemma DiamondAsksTwice()
    ensures DistinctChildren(DIAMOND)
    ensures Occ(ClientPlan(DIAMOND, "A"), "D") >= 2
  {
    var a, b := ["A", "B", "D"], ["A", "C", "D"];
    DiamondPath(a);
    DiamondPath(b);
    assert a[1] != b[1];
    TwoForwardPathsAskTwice(DIAMOND, "A", a, b);
  }

  /** The nine nodes of the shipped configuration. */
  const SHIPPED: Overlay := map[
    "A" := ["B", "H", "G", "I"],
    "B" := ["C", "D", "E"],
    "D" := ["E"],
    "E" := ["F", "G"]
  ]

  lemma OnlyParentGuards(ov: Overlay, entry: NodeId, p: NodeId, q: NodeId)
    requires q != entry
    requires forall r :: q in Children(ov, r) ==> r == p
    ensures Guards(ov, entry, p, q)
  {
    forall w | WalkFromTo(ov, entry, w, q) ensures p in w {
      assert w[|w| - 1] in Children(ov, w[|w| - 2]);
    }
  }

  lemma ShippedEdges(q: NodeId, d: NodeId)
    requires d in Children(SHIPPED, q)
    ensures q == "A" || q == "B" || q == "D" || q == "E"
    ensures d == "D" || d == "C" ==> q == "B"
    ensures d == "B" || d == "H" || d == "I" ==> q == "A"
    ensures d == "F" ==> q == "E"
    ensures d == "E" ==> q == "B" || q == "D"
    ensures d == "G" ==> q == "A" || q == "E"
    ensures d in ["B", "C", "D", "E", "F", "G", "H", "I"]
  {
  }

  lemma ShippedDGuardedByB()
    ensures Guards(SHIPPED, "A", "B", "D")
  {
    forall r | "D" in Children(SHIPPED, r) ensures r == "B" { ShippedEdges(r, "D"); }
    OnlyParentGuards(SHIPPED, "A", "B", "D");
  }

  /** E and G have two parents each; B guards E, and the entry guards G. */
  lemma ShippedGuard(d: NodeId, p: NodeId)
    requires d in Children(SHIPPED, p)
    ensures HasGuardingParent(SHIPPED, "A", d)
  {
    ShippedEdges(p, d);
    var guard := if d == "E" then "B" else if d == "G" then "A" else p;
    assert d in Children(SHIPPED, guard);
    forall q | d in Children(SHIPPED, q) && q != guard ensures Guards(SHIPPED, "A", guard, q) {
      ShippedEdges(q, d);
      if d == "E" {
        assert q == "D";
        ShippedDGuardedByB();
      }
    }
    assert GuardingParent(SHIPPED, "A", d, guard);
  }

  /** On the shipped overlay no node is asked twice. */
  lemma ShippedOverlayIsGuarded()
    ensures DistinctChildren(SHIPPED)
    ensures GuardedOverlay(SHIPPED, "A") && AskedAtMostOnce(SHIPPED, "A")
  {
    forall d | Reaches(SHIPPED, "A", d) && d != "A" ensures HasGuardingParent(SHIPPED, "A", d) {
      var path := SomeLastHop(SHIPPED, "A", d);
      ShippedGuard(d, path[|path| - 2]);
    }
    AtMostOnceIffGuarded(SHIPPED, "A");
  }
}
