/** What a reconcile does to the Clusters themselves: one finalizer comes, and goes, and nothing else changes. */
module Finalizers {
  import opened Prelude
  import opened Keys
  import opened Environment
  import opened Machine
  import opened Effects
  import opened Steps
  import opened Registration
  import opened Removal
  import opened Ownership
  import opened Isolation
  import opened IdentityGate

  const OWN := "teleport.finalizer.giantswarm.io"

  /** The Clusters once the operator's finalizer is at the end of the list of `k`, unless it is in it. */
  function Added(clusters: map<Key, Cluster>, k: Key): map<Key, Cluster> {
    if k !in clusters || OWN in clusters[k].finalizers then clusters
    else clusters[k := Cluster(clusters[k].finalizers + [OWN], clusters[k].deleting)]
  }

  lemma RegisterClusters(cfg: Config, n: Names, w: World, c: Cluster, roles: seq<string>)
    requires GoodGenerator(cfg) && FreshNames(cfg, w)
    requires n.cluster in w.clusters && w.clusters[n.cluster] == c
    ensures var r := Register(cfg, w, n, c, roles);
            && (r.w.clusters == w.clusters || r.w.clusters == Added(w.clusters, n.cluster))
            && (r.Ok? ==> r.w.clusters == Added(w.clusters, n.cluster))
  {
    var r1 := AddFinalizer(w, n.cluster, c);
    AddFinalizerEffect(w, n.cluster, c);
    assert r1.Ok? ==> r1.w.clusters == Added(w.clusters, n.cluster);
    if r1.Ok? {
      var r2 := SecretStep(cfg, r1.w, n);
      SecretStepEffect(cfg, r1.w, n);
      if r2.Ok? {
        var r3 := GetTeleportKubeAgentVersion(r2.w, n.agent);
        VersionEffect(r2.w, n.agent);
        if r3.Ok? {
          PublishKeepsSecrets(cfg, n, r3.w, roles, r3.value);
        }
      }
    }
  }

  lemma DeregisterClusters(cfg: Config, n: Names, w: World)
    requires n.cluster in w.clusters
    ensures var r := Deregister(cfg, w, n, w.clusters[n.cluster]);
            r.w.clusters == if r.Ok? then Released(w.clusters, n.cluster) else w.clusters
  {
    DeregisterToward(cfg, n, w);
    if Deregister(cfg, w, n, w.clusters[n.cluster]).Ok? {
      DeregisterClears(cfg, n, w);
    }
  }

  /** All the Clusters after a reconcile, wherever it stops. */
  lemma ReconcileClusters(cfg: Config, w: World, mem: Memory, k: Key)
    requires GoodGenerator(cfg) && FreshNames(cfg, w)
    ensures var clusters := Reconcile(cfg, w, mem, k).run.w.clusters;
            || clusters == w.clusters
            || (k in w.clusters && clusters ==
                  if w.clusters[k].deleting then Released(w.clusters, k) else Added(w.clusters, k))
  {
    ReconcileStarts(cfg, w, mem, k);
    var o, enabled := Reconcile(cfg, w, mem, k), k in w.appsEnabled;
    if !OnlyLater(w, o.run.w) {
      var v :| OnlyLater(w, v) && k in w.clusters && o.run == Manage(cfg, v, k, w.clusters[k], RolesFor(enabled));
      SameFresh(cfg, w, v);
      if w.clusters[k].deleting {
        DeregisterClusters(cfg, NamesOf(cfg, k), v);
      } else {
        RegisterClusters(cfg, NamesOf(cfg, k), v, w.clusters[k], RolesFor(enabled));
      }
    }
  }

  // --- Foreign finalizers ------------------------------------------------------------------------------------

  /** The finalizers of others on a Cluster, in their order; None if there is no such Cluster. */
  function Foreign(w: World, k: Key): Option<seq<string>> {
    if k in w.clusters then Some(Discard(w.clusters[k].finalizers, {OWN})) else None
  }

  /** They stay, and the mark for deletion with them; only a Cluster that is being deleted and has none of them may
      go. */
  predicate ForeignKept(w: World, v: World, k: Key) {
    || (Foreign(v, k) == Foreign(w, k)
        && (k in w.clusters ==> v.clusters[k].deleting == w.clusters[k].deleting))
    || (Foreign(v, k) == None && Foreign(w, k) == Some([]) && w.clusters[k].deleting)
  }

  lemma AddedKeeps(w: World, v: World, k: Key, other: Key)
    requires v.clusters == Added(w.clusters, k)
    ensures ForeignKept(w, v, other)
  {
    if k in w.clusters {
      DiscardConcat(w.clusters[k].finalizers, [OWN], {OWN});
      assert Discard([OWN], {OWN}) == [];
      var before := Discard(w.clusters[k].finalizers, {OWN});
      assert before + [] == before;
    }
  }

  lemma ReleasedKeeps(w: World, v: World, k: Key, other: Key)
    requires k in w.clusters && w.clusters[k].deleting && v.clusters == Released(w.clusters, k)
    ensures ForeignKept(w, v, other)
  {
    var c := w.clusters[k];
    var rest := Discard(c.finalizers, {OWN});
    DiscardTwice(c.finalizers, {OWN}, {OWN});
    assert {OWN} + {OWN} == {OWN} && FINALIZER == OWN;
    if FINALIZER in c.finalizers && rest != [] {
      assert v.clusters == w.clusters[k := c.(finalizers := rest)];
    } else if FINALIZER in c.finalizers {
      assert v.clusters == w.clusters - {k};
    }
  }

  /** No reconcile touches the finalizers of others, on any Cluster, wherever it stops. */
  lemma ReconcileKeepsFinalizers(cfg: Config, w: World, mem: Memory, k: Key, other: Key)
    requires GoodGenerator(cfg) && FreshNames(cfg, w)
    ensures ForeignKept(w, Reconcile(cfg, w, mem, k).run.w, other)
  {
    var v := Reconcile(cfg, w, mem, k).run.w;
    ReconcileClusters(cfg, w, mem, k);
    if v.clusters == w.clusters {
    } else if w.clusters[k].deleting {
      ReleasedKeeps(w, v, k, other);
    } else {
      AddedKeeps(w, v, k, other);
    }
  }
}
