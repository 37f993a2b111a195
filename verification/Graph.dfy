/** The directed overlay as a finite graph: walks and reachability. */
module Graph {
  import opened Results

  /** Outgoing neighbours of every configured node. */
  type Overlay = map<NodeId, seq<NodeId>>

  /** A node without an entry has no children. */
  function Children(ov: Overlay, n: NodeId): seq<NodeId> {
    if n in ov then ov[n] else []
  }

  function Elements(s: seq<NodeId>): set<NodeId> {
    set x | x in s
  }

  /** All nodes the overlay mentions. */
  function Universe(ov: Overlay): set<NodeId> {
    ov.Keys + set n, c | n in ov.Keys && c in ov[n] :: c
  }

  ghost predicate NoDuplicates(s: seq<NodeId>) {
    forall i, j :: 0 <= i < j < |s| ==> s[i] != s[j]
  }

  /** Child lists name each child once, as configuration loading enforces. */
  ghost predicate DistinctChildren(ov: Overlay) {
    forall n :: n in ov ==> NoDuplicates(ov[n])
  }

  ghost predicate IsWalk(ov: Overlay, w: seq<NodeId>) {
    && |w| > 0
    && forall i :: 0 <= i < |w| - 1 ==> w[i + 1] in Children(ov, w[i])
  }

  ghost predicate WalkFromTo(ov: Overlay, a: NodeId, w: seq<NodeId>, b: NodeId) {
    IsWalk(ov, w) && w[0] == a && w[|w| - 1] == b
  }

  ghost predicate Reaches(ov: Overlay, a: NodeId, b: NodeId) {
    exists w :: WalkFromTo(ov, a, w, b)
  }

  /** A walk with at least one edge from a node back to itself. */
  ghost predicate OnCycle(ov: Overlay, a: NodeId) {
    exists w :: WalkFromTo(ov, a, w, a) && |w| > 1
  }

  ghost predicate Closed(ov: Overlay, s: set<NodeId>) {
    forall n, c :: n in s && c in Children(ov, n) ==> c in s
  }

  lemma ReachesSelf(ov: Overlay, a: NodeId)
    ensures Reaches(ov, a, a)
  {
    assert WalkFromTo(ov, a, [a], a);
  }

  lemma ReachesStep(ov: Overlay, a: NodeId, b: NodeId, c: NodeId)
    requires Reaches(ov, a, b) && c in Children(ov, b)
    ensures Reaches(ov, a, c)
  {
    var w :| WalkFromTo(ov, a, w, b);
    assert WalkFromTo(ov, a, w + [c], c);
  }

  lemma ReachesTransitive(ov: Overlay, a: NodeId, b: NodeId, c: NodeId)
    requires Reaches(ov, a, b) && Reaches(ov, b, c)
    ensures Reaches(ov, a, c)
  {
    var v :| WalkFromTo(ov, a, v, b);
    var w :| WalkFromTo(ov, b, w, c);
    assert WalkFromTo(ov, a, v + w[1..], c);
  }

  /** A walk that starts in a closed set never leaves it. */
  lemma {:induction false} WalkStaysInside(ov: Overlay, s: set<NodeId>, w: seq<NodeId>, k: nat)
    requires IsWalk(ov, w) && Closed(ov, s) && w[0] in s && k < |w|
    ensures w[k] in s
  {
    if k > 0 {
      WalkStaysInside(ov, s, w, k - 1);
    }
  }

  lemma ClosedContainsReachable(ov: Overlay, s: set<NodeId>, a: NodeId, b: NodeId)
    requires Closed(ov, s) && a in s && Reaches(ov, a, b)
    ensures b in s
  {
    var w :| WalkFromTo(ov, a, w, b);
    WalkStaysInside(ov, s, w, |w| - 1);
  }
}
