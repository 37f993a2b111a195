/** Deciding, before deployment, whether an overlay asks no node twice. */
module GuardCheck {
  import opened Results
  import opened Graph
  import opened Forwarding
  import opened OverlayConfigs

  /** The overlay without node `p`. */
  function Cut(ov: Overlay, p: NodeId): Overlay {
    map n | n in ov && n != p :: Without(ov[n], p)
  }

  /** Walks of the cut overlay are the walks that avoid `p`. */
  lemma CutWalks(ov: Overlay, p: NodeId, w: seq<NodeId>)
    requires w != [] && w[0] != p
    ensures IsWalk(Cut(ov, p), w) <==> IsWalk(ov, w) && p !in w
  {
    if IsWalk(Cut(ov, p), w) {
      forall i | 0 <= i < |w| ensures w[i] != p {
        if i > 0 {
          assert w[i - 1 + 1] in Children(Cut(ov, p), w[i - 1]);
        }
      }
      forall i | 0 <= i < |w| - 1 ensures w[i + 1] in Children(ov, w[i]) {
        assert w[i + 1] in Children(Cut(ov, p), w[i]);
      }
    }
    if IsWalk(ov, w) && p !in w {
      forall i | 0 <= i < |w| - 1 ensures w[i + 1] in Children(Cut(ov, p), w[i]) {
        assert w[i + 1] in Children(ov, w[i]) && w[i + 1] != p && w[i] != p;
      }
    }
  }

  /** `p` lies on every walk from the entry to `q` exactly if `p` is the entry or taking `p` out cuts `q` off. */
  lemma GuardsIffCutOff(ov: Overlay, entry: NodeId, p: NodeId, q: NodeId)
    ensures Guards(ov, entry, p, q) <==> entry == p || !Reaches(Cut(ov, p), entry, q)
  {
    if entry != p {
      if Reaches(Cut(ov, p), entry, q) {
        var w :| WalkFromTo(Cut(ov, p), entry, w, q);
        CutWalks(ov, p, w);
        assert WalkFromTo(ov, entry, w, q);
      }
      if !Guards(ov, entry, p, q) {
        var w :| WalkFromTo(ov, entry, w, q) && p !in w;
        CutWalks(ov, p, w);
        assert WalkFromTo(Cut(ov, p), entry, w, q);
      }
    }
  }

  method Reachable(ov: Overlay, entry: NodeId) returns (r: set<NodeId>)
    ensures forall x :: x in r <==> Reaches(ov, entry, x)
  {
    var config := new OverlayConfig();
    config.children := ov;
    r := config.ReachableFrom(entry);
  }

  method IsGuardingParent(ov: Overlay, entry: NodeId, d: NodeId, p: NodeId) returns (ok: bool)
    ensures ok <==> GuardingParent(ov, entry, d, p)
  {
    if d !in Children(ov, p) {
      return false;
    }
    var reached := Reachable(Cut(ov, p), entry);
    ok := entry == p || forall q :: q in ov.Keys && d in ov[q] && q != p ==> q !in reached;
    forall q ensures Guards(ov, entry, p, q) <==> entry == p || q !in reached {
      GuardsIffCutOff(ov, entry, p, q);
    }
  }

  method IsGuardedNode(ov: Overlay, entry: NodeId, d: NodeId) returns (ok: bool)
    ensures ok <==> HasGuardingParent(ov, entry, d)
  {
    var rest := ov.Keys;
    while rest != {}
      invariant rest <= ov.Keys && forall p :: p in ov.Keys - rest ==> !GuardingParent(ov, entry, d, p)
      decreases |rest|
    {
      var p :| p in rest;
      ok := IsGuardingParent(ov, entry, d, p);
      if ok {
        return;
      }
      rest := rest - {p};
    }
    ok := false;
    forall p ensures !GuardingParent(ov, entry, d, p) {
      if p in ov.Keys {
        assert p in ov.Keys - rest;
      }
    }
  }

  /** Decides the condition, and with it, for child lists without duplicates, whether any node is asked twice. */
  method IsGuarded(ov: Overlay, entry: NodeId) returns (ok: bool)
    ensures ok <==> GuardedOverlay(ov, entry)
    ensures DistinctChildren(ov) ==> (ok <==> AskedAtMostOnce(ov, entry))
  {
    if DistinctChildren(ov) {
      AtMostOnceIffGuarded(ov, entry);
    }
    var reached := Reachable(ov, entry);
    var rest := reached - {entry};
    while rest != {}
      invariant rest <= reached - {entry}
      invariant forall d :: d in reached - {entry} - rest ==> HasGuardingParent(ov, entry, d)
      decreases |rest|
    {
      var d :| d in rest;
      ok := IsGuardedNode(ov, entry, d);
      if !ok {
        return;
      }
      rest := rest - {d};
    }
    ok := true;
    forall d | Reaches(ov, entry, d) && d != entry ensures HasGuardingParent(ov, entry, d) {
      assert d in reached - {entry} - rest;
    }
  }
}
