/** The configured overlay: node metadata, outgoing edges with their inverse
    index, and the depth-first searches that validate it. */
module OverlayConfigs {
  import opened Results
  import opened Graph

  datatype NodeInfo = NodeInfo(nodeId: NodeId, isEntryNode: bool, ownedFiles: seq<string>)

  /** `s` with every occurrence of `x` taken out, order kept. */
  function Without(s: seq<NodeId>, x: NodeId): (r: seq<NodeId>)
    ensures forall y :: y in r <==> y in s && y != x
    ensures |r| <= |s|
    ensures NoDuplicates(s) ==> NoDuplicates(r)
  {
    if s == [] then []
    else
      var k := |s| - 1;
      assert forall y :: y in s <==> y in s[..k] || y == s[k];
      var rest := Without(s[..k], x);
      assert NoDuplicates(s) ==> NoDuplicates(s[..k]) && s[k] !in s[..k];
      assert s[k] !in s[..k] ==> s[k] !in rest;
      rest + if s[k] == x then [] else [s[k]]
  }

  /** The parent index records an edge from `p` to `c`. */
  ghost predicate Indexed(parents: map<NodeId, seq<NodeId>>, p: NodeId, c: NodeId) {
    c in parents && p in parents[c]
  }

  /** No parent is listed twice, and no child has an empty entry. */
  ghost predicate NoEmptyEntries(parents: map<NodeId, seq<NodeId>>) {
    forall c :: c in parents ==> parents[c] != [] && NoDuplicates(parents[c])
  }

  ghost predicate ReachesAfterStep(ov: Overlay, a: NodeId, b: NodeId) {
    exists w :: WalkFromTo(ov, a, w, b) && |w| > 1
  }

  ghost predicate Acyclic(ov: Overlay, s: set<NodeId>) {
    forall n :: n in s ==> !OnCycle(ov, n)
  }

  /** Some cycle can be reached from `root`. */
  ghost predicate CycleReachable(ov: Overlay, root: NodeId) {
    exists c :: Reaches(ov, root, c) && OnCycle(ov, c)
  }

  /** Every node of the recursion stack leads to `n` in at least one step. */
  ghost predicate StackLeadsTo(ov: Overlay, stack: set<NodeId>, n: NodeId) {
    forall x :: x in stack ==> ReachesAfterStep(ov, x, n)
  }

  /** Nodes the search is done with: closed under edges, and on no cycle. */
  ghost predicate Finished(ov: Overlay, s: set<NodeId>) {
    Closed(ov, s) && Acyclic(ov, s)
  }

  lemma StackLeadsToChild(ov: Overlay, stack: set<NodeId>, n: NodeId, c: NodeId)
    requires StackLeadsTo(ov, stack, n) && c in Children(ov, n)
    ensures StackLeadsTo(ov, stack + {n}, c)
  {
    forall x | x in stack + {n} ensures ReachesAfterStep(ov, x, c) {
      StepExtends(ov, x, n, c);
    }
  }

  lemma NodeFinishes(ov: Overlay, s: set<NodeId>, n: NodeId)
    requires Finished(ov, s) && n !in s && forall c :: c in Children(ov, n) ==> c in s
    ensures Finished(ov, s + {n})
  {
    FinishedNodeOffCycle(ov, s, n);
  }

  lemma StepExtends(ov: Overlay, a: NodeId, b: NodeId, c: NodeId)
    requires (a == b || ReachesAfterStep(ov, a, b)) && c in Children(ov, b)
    ensures ReachesAfterStep(ov, a, c)
  {
    if a == b {
      assert WalkFromTo(ov, a, [a, c], c);
    } else {
      var w :| WalkFromTo(ov, a, w, b) && |w| > 1;
      assert WalkFromTo(ov, a, w + [c], c);
    }
  }

  /** All successors of `n` lie in a closed set that does not contain `n`, so no cycle passes through `n`. */
  lemma FinishedNodeOffCycle(ov: Overlay, s: set<NodeId>, n: NodeId)
    requires Closed(ov, s) && n !in s && forall c :: c in Children(ov, n) ==> c in s
    ensures !OnCycle(ov, n)
  {
    forall w | WalkFromTo(ov, n, w, n) && |w| > 1 ensures false {
      assert w[1] in Children(ov, w[0]);
      assert IsWalk(ov, w[1..]) by {
        forall i | 0 <= i < |w[1..]| - 1 ensures w[1..][i + 1] in Children(ov, w[1..][i]) {
          assert w[i + 2] in Children(ov, w[i + 1]);
        }
      }
      WalkStaysInside(ov, s, w[1..], |w| - 2);
    }
  }

  class OverlayConfig {
    var selfNodeId: NodeId
    var nodes: map<NodeId, NodeInfo>
    var children: Overlay
    var parents: map<NodeId, seq<NodeId>>

    constructor ()
      ensures Consistent() && nodes == map[] && children == map[] && selfNodeId == ""
    {
      selfNodeId, nodes, children, parents := "", map[], map[], map[];
    }

    /** Nodes are stored under their ids, and the parent index is the exact inverse of the children. */
    ghost predicate Consistent()
      reads this
    {
      && (forall n :: n in nodes ==> nodes[n].nodeId == n)
      && NoEmptyEntries(parents)
      && (forall p, c :: Indexed(parents, p, c) <==> c in Children(children, p))
    }

    // ----- edges and their inverse

    method AddIncomingEdge(childId: NodeId, parentId: NodeId)
      requires NoEmptyEntries(parents)
      modifies this`parents
      ensures NoEmptyEntries(parents)
      ensures forall p, c :: Indexed(parents, p, c) <==> Indexed(old(parents), p, c) || (p == parentId && c == childId)
    {
      var before := if childId in parents then parents[childId] else [];
      if parentId !in before {
        parents := parents[childId := before + [parentId]];
      }
    }

    method RemoveIncomingEdge(childId: NodeId, parentId: NodeId)
      requires NoEmptyEntries(parents)
      modifies this`parents
      ensures NoEmptyEntries(parents)
      ensures forall p, c :: Indexed(parents, p, c) <==> Indexed(old(parents), p, c) && !(p == parentId && c == childId)
    {
      if childId !in parents {
        return;
      }
      var left := Without(parents[childId], parentId);
      parents := parents[childId := left];
      if left == [] {
        parents := parents - {childId};
      }
    }

    /** Replaces the outgoing edges of one node; the inverse index follows, whatever
        the old and new lists were. */
    method SetChildren(nodeId: NodeId, list: seq<NodeId>)
      requires Consistent()
      modifies this`children, this`parents
      ensures Consistent() && children == old(children)[nodeId := list]
    {
      var gone := Children(children, nodeId);
      var i := 0;
      while i < |gone|
        invariant i <= |gone| && NoEmptyEntries(parents) && children == old(children)
        invariant forall p, c :: Indexed(parents, p, c) <==>
          Indexed(old(parents), p, c) && !(p == nodeId && c in gone[..i])
      {
        RemoveIncomingEdge(gone[i], nodeId);
        assert gone[..i + 1] == gone[..i] + [gone[i]];
        i := i + 1;
      }
      assert gone[..i] == gone;
      ghost var others := parents;
      children := children[nodeId := list];
      i := 0;
      while i < |list|
        invariant i <= |list| && NoEmptyEntries(parents) && children == old(children)[nodeId := list]
        invariant forall p, c :: Indexed(parents, p, c) <==> Indexed(others, p, c) || (p == nodeId && c in list[..i])
      {
        AddIncomingEdge(list[i], nodeId);
        assert list[..i + 1] == list[..i] + [list[i]];
        i := i + 1;
      }
      assert list[..i] == list;
    }

    // ----- reachability

    /** Adds everything reachable from `nodeId` that is not cut off by nodes already in the set. */
    method CollectReachable(nodeId: NodeId, reachable: set<NodeId>, ghost universe: set<NodeId>)
        returns (r: set<NodeId>)
      requires Closed(children, universe) && nodeId in universe && reachable <= universe
      ensures reachable <= r <= universe && nodeId in r
      ensures forall x :: x in r && x !in reachable ==> Reaches(children, nodeId, x)
      ensures forall x, c :: x in r && x !in reachable && c in Children(children, x) ==> c in r
      decreases universe - reachable
    {
      r := reachable;
      if nodeId in r {
        return;
      }
      r := r + {nodeId};
      ReachesSelf(children, nodeId);
      var list := Children(children, nodeId);
      var i := 0;
      while i < |list|
        invariant i <= |list| && reachable + {nodeId} <= r <= universe
        invariant forall x :: x in r && x !in reachable ==> Reaches(children, nodeId, x)
        invariant forall x, c :: x in r && x !in reachable && x != nodeId && c in Children(children, x) ==> c in r
        invariant forall c :: c in list[..i] ==> c in r
      {
        ghost var before := r;
        r := CollectReachable(list[i], r, universe);
        forall x | x in r && x !in before ensures Reaches(children, nodeId, x) {
          ReachesStep(children, nodeId, nodeId, list[i]);
          ReachesTransitive(children, nodeId, list[i], x);
        }
        assert list[..i + 1] == list[..i] + [list[i]];
        i := i + 1;
      }
      assert list[..i] == list;
    }

    /** Exactly the nodes reachable from `nodeId`. */
    method ReachableFrom(nodeId: NodeId) returns (r: set<NodeId>)
      ensures forall x :: x in r <==> Reaches(children, nodeId, x)
    {
      r := CollectReachable(nodeId, {}, Universe(children) + {nodeId});
      forall x | Reaches(children, nodeId, x) ensures x in r {
        ClosedContainsReachable(children, r, nodeId, x);
      }
    }

    /** Appends every not yet visited descendant once, parents before their own descendants. */
    method CollectDescendantsRecursive(nodeId: NodeId, out: seq<NodeId>, visited: set<NodeId>,
        ghost universe: set<NodeId>)
      returns (r: seq<NodeId>, v: set<NodeId>)
      requires Closed(children, universe) && nodeId in universe && visited <= universe
      requires NoDuplicates(out) && Elements(out) <= visited
      ensures visited <= v <= universe
      ensures NoDuplicates(r) && Elements(r) == Elements(out) + (v - visited)
      ensures forall x :: x in v && x !in visited ==> Reaches(children, nodeId, x)
      ensures forall x, c :: (x == nodeId || (x in v && x !in visited)) && c in Children(children, x) ==> c in v
      decreases universe - visited
    {
      r, v := out, visited;
      var list := Children(children, nodeId);
      var i := 0;
      while i < |list|
        invariant i <= |list| && visited <= v <= universe
        invariant NoDuplicates(r) && Elements(r) == Elements(out) + (v - visited)
        invariant forall x :: x in v && x !in visited ==> Reaches(children, nodeId, x)
        invariant forall x, c :: x in v && x !in visited && c in Children(children, x) ==> c in v
        invariant forall c :: c in list[..i] ==> c in v
      {
        var childId := list[i];
        assert list[..i + 1] == list[..i] + [childId];
        i := i + 1;
        if childId in v {
          continue;
        }
        ghost var before := v;
        ReachesSelf(children, nodeId);
        ReachesStep(children, nodeId, nodeId, childId);
        assert Elements(r + [childId]) == Elements(r) + {childId};
        r, v := CollectDescendantsRecursive(childId, r + [childId], v + {childId}, universe);
        forall x | x in v && x !in before && x != childId ensures Reaches(children, nodeId, x) {
          ReachesTransitive(children, nodeId, childId, x);
        }
      }
      assert list[..i] == list;
    }

    /** Every node reachable from `nodeId` except itself, without duplicates, on cyclic overlays too. */
    method CollectDescendants(nodeId: NodeId) returns (r: seq<NodeId>)
      ensures NoDuplicates(r)
      ensures forall x :: x in r <==> Reaches(children, nodeId, x) && x != nodeId
    {
      var v;
      r, v := CollectDescendantsRecursive(nodeId, [], {nodeId}, Universe(children) + {nodeId});
      forall x ensures x in r <==> Reaches(children, nodeId, x) && x != nodeId {
        assert x in r <==> x in Elements(r);
        if Reaches(children, nodeId, x) {
          ClosedContainsReachable(children, v, nodeId, x);
        }
      }
    }

    // ----- cycles

    /** One call of the recursive cycle search. Nodes on the recursion stack lead to
        `nodeId`; finished nodes are closed under edges and lie on no cycle. */
    method HasCycle(nodeId: NodeId, visited: set<NodeId>, activeStack: set<NodeId>, ghost root: NodeId,
        ghost universe: set<NodeId>)
      returns (found: bool, v: set<NodeId>, a: set<NodeId>)
      requires Closed(children, universe) && nodeId in universe && activeStack <= visited <= universe
      requires Reaches(children, root, nodeId)
      requires StackLeadsTo(children, activeStack, nodeId) && Finished(children, visited - activeStack)
      ensures found ==> CycleReachable(children, root)
      ensures !found ==> visited <= v <= universe && a == activeStack && nodeId in v - a && Finished(children, v - a)
      decreases universe - visited
    {
      v, a := visited, activeStack;
      if nodeId in a {
        assert OnCycle(children, nodeId);
        return true, v, a;
      }
      if nodeId in v {
        return false, v, a;
      }
      v, a := v + {nodeId}, a + {nodeId};
      assert v - a == visited - activeStack;
      var list := Children(children, nodeId);
      var i := 0;
      while i < |list|
        invariant i <= |list| && visited + {nodeId} <= v <= universe && a == activeStack + {nodeId}
        invariant Finished(children, v - a)
        invariant forall c :: c in list[..i] ==> c in v - a
      {
        var childId := list[i];
        ReachesStep(children, root, nodeId, childId);
        StackLeadsToChild(children, activeStack, nodeId, childId);
        ghost var before := v - a;
        found, v, a := HasCycle(childId, v, a, root, universe);
        if found {
          return;
        }
        assert before <= v - a;
        assert list[..i + 1] == list[..i] + [childId];
        i := i + 1;
      }
      assert list[..i] == list;
      NodeFinishes(children, v - a, nodeId);
      assert v - (a - {nodeId}) == (v - a) + {nodeId};
      a := a - {nodeId};
      assert a == activeStack;
      found := false;
    }

    /** Started with empty sets the search says true exactly when a cycle is reachable. */
    method HasCycleFrom(start: NodeId) returns (found: bool)
      ensures found <==> CycleReachable(children, start)
    {
      ReachesSelf(children, start);
      var v, a;
      found, v, a := HasCycle(start, {}, {}, start, Universe(children) + {start});
      if !found {
        forall c | Reaches(children, start, c) ensures !OnCycle(children, c) {
          ClosedContainsReachable(children, v - a, start, c);
        }
      }
    }

    // ----- validation

    ghost function EntryNodes(): set<NodeId>
      reads this
    {
      set n | n in nodes && nodes[n].isEntryNode
    }

    /** No file is listed twice, neither by one node nor by two. */
    ghost predicate FilesOwnedOnce()
      reads this
    {
      && (forall n :: n in nodes ==> NoDuplicates(nodes[n].ownedFiles))
      && (forall m, n, f :: m in nodes && n in nodes && m != n && f in nodes[m].ownedFiles ==>
          f !in nodes[n].ownedFiles)
    }

    ghost predicate EdgesKnown()
      reads this
    {
      forall n :: n in children ==>
        n in nodes && NoDuplicates(children[n]) && forall c :: c in children[n] ==> c in nodes
    }

    /** What a valid directed overlay is. */
    ghost predicate IsValidOverlay()
      reads this
    {
      && (selfNodeId != "" ==> selfNodeId in nodes)
      && |EntryNodes()| == 1
      && FilesOwnedOnce() && EdgesKnown()
      && forall e :: e in EntryNodes() ==>
          (forall n :: n in nodes ==> Reaches(children, e, n)) && !CycleReachable(children, e)
    }

    /** Some entry node, and how many there are. */
    method CountEntries() returns (entry: Option<NodeId>, count: nat)
      ensures count == |EntryNodes()|
      ensures entry.None? <==> EntryNodes() == {}
      ensures entry.Some? ==> entry.value in EntryNodes()
    {
      entry, count := None, 0;
      var todo := nodes.Keys;
      ghost var entries: set<NodeId> := {};
      while todo != {}
        invariant todo <= nodes.Keys
        invariant forall n :: n in entries <==> n in nodes && n !in todo && nodes[n].isEntryNode
        invariant count == |entries|
        invariant entry.None? <==> entries == {}
        invariant entry.Some? ==> entry.value in entries
        decreases todo
      {
        var n :| n in todo;
        todo := todo - {n};
        if nodes[n].isEntryNode {
          entry := if entry.None? then Some(n) else entry;
          count := count + 1;
          entries := entries + {n};
        }
      }
      assert entries == EntryNodes();
    }

    /** Inserts a list into a set of strings seen so far; says whether all of them were new and distinct. */
    static method InsertAllNew(list: seq<string>, seen: set<string>) returns (ok: bool, after: set<string>)
      ensures ok <==> NoDuplicates(list) && forall x :: x in list ==> x !in seen
      ensures ok ==> after == seen + Elements(list)
    {
      after := seen;
      var i := 0;
      while i < |list|
        invariant i <= |list| && after == seen + Elements(list[..i])
        invariant NoDuplicates(list[..i]) && forall x :: x in list[..i] ==> x !in seen
      {
        if list[i] in after {
          if list[i] in seen {
            return false, after;
          }
          assert list[i] in list[..i];
          return false, after;
        }
        assert list[i] !in list[..i] && list[i] !in seen;
        assert list[..i + 1] == list[..i] + [list[i]];
        after := after + {list[i]};
        i := i + 1;
      }
      assert list[..i] == list;
      ok := true;
    }

    method FilesAreOwnedOnce() returns (ok: bool)
      ensures ok <==> FilesOwnedOnce()
    {
      var todo := nodes.Keys;
      ghost var done: set<NodeId> := {};
      var seen: set<string> := {};
      while todo != {}
        invariant todo !! done && todo + done == nodes.Keys
        invariant forall f :: f in seen <==> exists n :: n in done && f in nodes[n].ownedFiles
        invariant forall n :: n in done ==> NoDuplicates(nodes[n].ownedFiles)
        invariant forall m, n, f :: m in done && n in done && m != n && f in nodes[m].ownedFiles ==>
          f !in nodes[n].ownedFiles
        decreases todo
      {
        var n :| n in todo;
        todo := todo - {n};
        var fresh', after := InsertAllNew(nodes[n].ownedFiles, seen);
        if !fresh' {
          return false;
        }
        done, seen := done + {n}, after;
      }
      ok := true;
    }

    method EdgesAreKnown() returns (ok: bool)
      ensures ok <==> EdgesKnown()
    {
      var todo := children.Keys;
      ghost var done: set<NodeId> := {};
      while todo != {}
        invariant todo !! done && todo + done == children.Keys
        invariant forall n :: n in done ==>
          n in nodes && NoDuplicates(children[n]) && forall c :: c in children[n] ==> c in nodes
        decreases todo
      {
        var n :| n in todo;
        todo := todo - {n};
        if n !in nodes {
          return false;
        }
        var distinct, _ := InsertAllNew(children[n], {});
        if !distinct || exists c :: c in children[n] && c !in nodes {
          return false;
        }
        done := done + {n};
      }
      ok := true;
    }

    lemma ReachableIsKnown(entry: NodeId, n: NodeId)
      requires EdgesKnown() && entry in nodes && Reaches(children, entry, n)
      ensures n in nodes
    {
      ClosedContainsReachable(children, nodes.Keys, entry, n);
    }

    lemma OneElement(s: set<NodeId>, a: NodeId, b: NodeId)
      requires |s| == 1 && a in s && b in s
      ensures a == b
    {
      assert |s - {a}| == |s| - 1;
      assert s - {a} == {};
    }

    lemma SameSizeSameSet(a: set<NodeId>, b: set<NodeId>)
      requires a <= b
      ensures |a| == |b| <==> a == b
    {
      assert b == a + (b - a);
      assert |b| == |a| + |b - a|;
    }

    /** Accepts exactly the valid overlays. */
    method Validate() returns (ok: bool)
      requires Consistent()
      ensures ok <==> IsValidOverlay()
    {
      if selfNodeId != "" && selfNodeId !in nodes {
        return false;
      }
      var entry, entryCount := CountEntries();
      if entry.None? || entryCount != 1 {
        return false;
      }
      var filesOk := FilesAreOwnedOnce();
      if !filesOk {
        return false;
      }
      var edgesOk := EdgesAreKnown();
      if !edgesOk {
        return false;
      }
      var e := entry.value;
      forall x | x in EntryNodes() ensures x == e { OneElement(EntryNodes(), x, e); }
      var reachable := ReachableFrom(e);
      forall n | n in reachable ensures n in nodes { ReachableIsKnown(e, n); }
      SameSizeSameSet(reachable, nodes.Keys);
      if |reachable| != |nodes| {
        assert exists n :: n in nodes && n !in reachable;
        return false;
      }
      var cyclic := HasCycleFrom(e);
      ok := !cyclic;
    }
  }
}
