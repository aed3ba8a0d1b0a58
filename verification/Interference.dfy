/** Isolation is exact: two clusters are isolated from each other if and only if they do not interfere. */
module Interference {
  import opened Prelude
  import opened Keys
  import opened Documents
  import opened Tokens
  import opened Environment
  import opened Machine
  import opened Effects
  import opened Steps
  import opened Removal
  import opened Isolation
  import opened IdentityGate
  import opened Reconciliation

  /** Whatever the world and the operator's memory, reconciling a leaves b untouched, wherever it stops. */
  ghost predicate Isolated(cfg: Config, a: Key, b: Key) {
    forall w: World, mem: Memory :: FreshNames(cfg, w) ==>
      Untouched(cfg, NamesOf(cfg, b), w, Reconcile(cfg, w, mem, a).run.w)
  }

  const CALLS := GATE_CALLS + DEREGISTER_CALLS

  /** a is being deleted, b has its two ConfigMaps, and there is one token under the register name of a. */
  function Deleting(cfg: Config, a: Key, b: Key): World {
    World(
      map[a := Cluster([], true)],
      {},
      map[Key(cfg.namespace, IDENTITY_SECRET) := map[IDENTITY := ""]],
      map[NamesOf(cfg, b).configMap := map[], NamesOf(cfg, b).botConfigMap := map[]],
      map[],
      map[],
      [NewToken(cfg.generate(0), NamesOf(cfg, a).register, [], 0)],
      1,
      0,
      0,
      seq(CALLS, _ => 0))
  }

  lemma DeletingIsFresh(cfg: Config, a: Key, b: Key)
    requires GoodGenerator(cfg)
    ensures FreshNames(cfg, Deleting(cfg, a, b))
  {
  }

  lemma OneLabelled(t: Token)
    ensures Labelled([t], ClusterLabel(t)) == [t]
  {
  }

  /** Deregistering a deletes its ConfigMaps and its one token. */
  lemma DeletingOutcome(cfg: Config, a: Key, b: Key)
    requires GoodGenerator(cfg)
    ensures var w, n := Deleting(cfg, a, b), NamesOf(cfg, a);
            var v := Reconcile(cfg, w, STARTED, a).run.w;
            && n.configMap !in v.configMaps && (cfg.botEnabled ==> n.botConfigMap !in v.configMaps)
            && Labelled(v.tokens, n.register) == [] && Labelled(w.tokens, n.register) != []
  {
    var w, n := Deleting(cfg, a, b), NamesOf(cfg, a);
    var c := w.clusters[a];
    var v := ReconcileProceeds(cfg, w, STARTED, a);
    DeregisterCompletes(cfg, v, n, c);
    DeregisterClears(cfg, n, v);
    ClearedMeans(cfg, n, v);
    TokensAfterDeregister(cfg, n, v, c);
    DeletingIsFresh(cfg, a, b);
    DeleteOneAccounting(w.tokens, n.register);
    OneLabelled(w.tokens[0]);
  }

  lemma InterferenceTouches(cfg: Config, a: Key, b: Key)
    requires GoodGenerator(cfg) && Interferes(cfg, a, b)
    ensures !Untouched(cfg, NamesOf(cfg, b), Deleting(cfg, a, b), Reconcile(cfg, Deleting(cfg, a, b), STARTED, a).run.w)
  {
    DeletingOutcome(cfg, a, b);
  }

  /** The theorem, for any two clusters, of one name or two, in one namespace or two, with the bot or without. */
  lemma IsolatedExactly(cfg: Config, a: Key, b: Key)
    requires GoodGenerator(cfg)
    ensures Isolated(cfg, a, b) <==> !Interferes(cfg, a, b)
  {
    if Interferes(cfg, a, b) {
      DeletingIsFresh(cfg, a, b);
      InterferenceTouches(cfg, a, b);
    } else {
      forall w: World, mem: Memory | FreshNames(cfg, w)
        ensures Untouched(cfg, NamesOf(cfg, b), w, Reconcile(cfg, w, mem, a).run.w)
      {
        ReconcileIsolated(cfg, w, mem, a, b);
      }
    }
  }

  /** Names can clash although none starts with the tbot prefix. */
  lemma ClashingNames(cfg: Config)
    requires cfg.appName == "teleport-kube-agent" && cfg.botEnabled
    ensures Interferes(cfg, Key(BOT_NAMESPACE, "teleport-tbot"), Key("org-x", "teleport-kube-agent"))
  {
  }
}
