/** Reconciling one cluster leaves every other cluster alone, as long as their names do not clash. */
module Isolation {
  import opened Prelude
  import opened Keys
  import opened Documents
  import opened Tokens
  import opened References
  import opened Environment
  import opened Machine
  import opened Effects
  import opened Steps
  import opened Injection
  import opened Registration
  import opened Removal
  import opened Ownership

  // --- The footprint of a whole reconcile ------------------------------------------------------------

  lemma AddFinalizerContained(cfg: Config, n: Names, w: World, c: Cluster)
    ensures Contained(cfg, n, w, AddFinalizer(w, n.cluster, c).w)
    ensures Contained(cfg, n, w, RemoveFinalizer(w, n.cluster, c).w)
  {
    PatchContained(cfg, n, w, c.finalizers + [FINALIZER]);
    PatchContained(cfg, n, w, Discard(c.finalizers, {FINALIZER}));
  }

  lemma OnlyLaterContained(cfg: Config, n: Names, w: World, v: World)
    requires OnlyLater(w, v)
    ensures Contained(cfg, n, w, v)
  {
    SameObjectsContained(cfg, n, w, v);
  }

  lemma PrepareContained(cfg: Config, n: Names, w: World, c: Cluster)
    requires GoodGenerator(cfg) && FreshNames(cfg, w)
    ensures Contained(cfg, n, w, Prepare(cfg, w, n, c).w)
  {
    AddFinalizerContained(cfg, n, w, c);
    var r1 := AddFinalizer(w, n.cluster, c);
    if r1.Ok? {
      SecretStepContained(cfg, r1.w, n);
      var r2 := SecretStep(cfg, r1.w, n);
      ContainedTransitive(cfg, n, w, r1.w, r2.w);
      if r2.Ok? {
        VersionEffect(r2.w, n.agent);
        var r3 := GetTeleportKubeAgentVersion(r2.w, n.agent);
        OnlyLaterContained(cfg, n, r2.w, r3.w);
        ContainedTransitive(cfg, n, w, r2.w, r3.w);
      }
    }
  }

  lemma InjectContained(cfg: Config, n: Names, w: World)
    ensures Contained(cfg, n, w, Inject(cfg, w, n).w)
  {
    ReferenceContained(cfg, n, w, n.agent, n.configMap.name);
    var r := EnsureReference(w, n.agent, n.configMap.name);
    if r.Ok? {
      BotStepContained(cfg, r.w, n);
      ContainedTransitive(cfg, n, w, r.w, BotStep(cfg, r.w, n).w);
    }
  }

  lemma RegisterContained(cfg: Config, n: Names, w: World, c: Cluster, roles: seq<string>)
    requires GoodGenerator(cfg) && FreshNames(cfg, w)
    ensures Contained(cfg, n, w, Register(cfg, w, n, c, roles).w)
  {
    PrepareContained(cfg, n, w, c);
    var r1 := Prepare(cfg, w, n, c);
    if r1.Ok? {
      ConfigMapStepContained(cfg, r1.w, n, roles, r1.value);
      var r2 := ConfigMapStep(cfg, r1.w, n, roles, r1.value);
      ContainedTransitive(cfg, n, w, r1.w, r2.w);
      if r2.Ok? {
        InjectContained(cfg, n, r2.w);
        ContainedTransitive(cfg, n, w, r2.w, Inject(cfg, r2.w, n).w);
      }
    }
  }

  lemma RevokeContained(cfg: Config, n: Names, w: World)
    requires FreshNames(cfg, w)
    ensures Contained(cfg, n, w, Revoke(w, n).w)
  {
    DeleteTokenContained(cfg, n, w);
    var r1 := DeleteToken(w, n.register);
    if r1.Ok? {
      DeleteSecretContained(cfg, n, r1.w, n.secret);
      var r2 := DeleteSecret(r1.w, n.secret);
      ContainedTransitive(cfg, n, w, r1.w, r2.w);
      if r2.Ok? {
        DeleteConfigMapContained(cfg, n, r2.w, n.configMap);
        ContainedTransitive(cfg, n, w, r2.w, DeleteConfigMap(r2.w, n.configMap).w);
      }
    }
  }

  lemma DeleteBotContained(cfg: Config, n: Names, w: World)
    ensures Contained(cfg, n, w, DeleteBot(cfg, w, n).w)
  {
    if cfg.botEnabled {
      ReferenceContained(cfg, n, w, n.bot, n.botConfigMap.name);
      var r1 := DeleteReference(w, n.bot, n.botConfigMap.name);
      if r1.Ok? {
        DeleteConfigMapContained(cfg, n, r1.w, n.botConfigMap);
        var r2 := DeleteConfigMap(r1.w, n.botConfigMap);
        ContainedTransitive(cfg, n, w, r1.w, r2.w);
        if r2.Ok? {
          DeleteSecretContained(cfg, n, r2.w, n.kubeconfig);
          ContainedTransitive(cfg, n, w, r2.w, DeleteSecret(r2.w, n.kubeconfig).w);
        }
      }
    }
  }

  lemma ReleaseContained(cfg: Config, n: Names, w: World, c: Cluster)
    ensures Contained(cfg, n, w, Release(w, n, c).w)
  {
    ReferenceContained(cfg, n, w, n.agent, n.configMap.name);
    var r := DeleteReference(w, n.agent, n.configMap.name);
    if r.Ok? {
      AddFinalizerContained(cfg, n, r.w, c);
      ContainedTransitive(cfg, n, w, r.w, RemoveFinalizer(r.w, n.cluster, c).w);
    }
  }

  lemma DeregisterContained(cfg: Config, n: Names, w: World, c: Cluster)
    requires FreshNames(cfg, w)
    ensures Contained(cfg, n, w, Deregister(cfg, w, n, c).w)
  {
    RevokeContained(cfg, n, w);
    var r1 := Revoke(w, n);
    if r1.Ok? {
      DeleteBotContained(cfg, n, r1.w);
      var r2 := DeleteBot(cfg, r1.w, n);
      ContainedTransitive(cfg, n, w, r1.w, r2.w);
      if r2.Ok? {
        ReleaseContained(cfg, n, r2.w, c);
        ContainedTransitive(cfg, n, w, r2.w, Release(r2.w, n, c).w);
      }
    }
  }

  // --- Disjoint names ------------------------------------------------------------------------------------

  /** Nothing a reconcile of `n` may touch belongs to `m`. */
  predicate Disjoint(cfg: Config, n: Names, m: Names) {
    && n.cluster != m.cluster && n.register != m.register
    && SecretKeys(cfg, n) !! SecretKeys(cfg, m) && ConfigMapKeys(cfg, n) !! ConfigMapKeys(cfg, m)
    && m.configMap.name !in OwnNames(cfg, n, m.agent)
    && (cfg.botEnabled ==> m.botConfigMap.name !in OwnNames(cfg, n, m.bot))
  }

  /** The values ConfigMap of a is the tbot ConfigMap of b. */
  predicate Clash(cfg: Config, a: Key, b: Key) {
    a.ns == BOT_NAMESPACE && GetConfigmapName(a.name, cfg.appName) == GetTbotConfigmapName(b.name)
  }

  /** Two clusters interfere when they have the same name, be it in two namespaces, or when the bot is enabled and
      they clash, one way or the other. */
  predicate Interferes(cfg: Config, a: Key, b: Key) {
    a.name == b.name || (cfg.botEnabled && (Clash(cfg, a, b) || Clash(cfg, b, a)))
  }

  lemma SuffixCancels(a: string, b: string, s: string)
    requires a + s == b + s
    ensures a == b
  {
    assert |a| == |b|;
    assert a == (a + s)[..|a|] && b == (b + s)[..|b|];
  }

  lemma PrefixCancels(p: string, a: string, b: string)
    requires p + a == p + b
    ensures a == b
  {
    assert a == (p + a)[|p|..] && b == (p + b)[|p|..];
  }

  lemma LastOfConcat(a: string, s: string)
    requires s != []
    ensures (a + s)[|a + s| - 1] == s[|s| - 1]
  {
  }

  lemma SecretNamesDiffer(a: string, b: string)
    ensures GetSecretName(a) != GetKubeconfigSecretName(b)
    ensures a != b ==> GetSecretName(a) != GetSecretName(b) && GetKubeconfigSecretName(a) != GetKubeconfigSecretName(b)
  {
    LastOfConcat(a, "-teleport-join-token");
    LastOfConcat("teleport-" + b, "-kubeconfig");
    if GetSecretName(a) == GetSecretName(b) {
      SuffixCancels(a, b, "-teleport-join-token");
    }
    if GetKubeconfigSecretName(a) == GetKubeconfigSecretName(b) {
      SuffixCancels("teleport-" + a, "teleport-" + b, "-kubeconfig");
      PrefixCancels("teleport-", a, b);
    }
  }

  lemma ConfigMapNamesDiffer(a: string, b: string, app: string)
    requires a != b
    ensures GetConfigmapName(a, app) != GetConfigmapName(b, app)
    ensures GetTbotConfigmapName(a) != GetTbotConfigmapName(b)
  {
    if GetConfigmapName(a, app) == GetConfigmapName(b, app) {
      SuffixCancels(a + "-" + app, b + "-" + app, "-config");
      assert a + "-" + app == a + ("-" + app) && b + "-" + app == b + ("-" + app);
      SuffixCancels(a, b, "-" + app);
    }
    if GetTbotConfigmapName(a) == GetTbotConfigmapName(b) {
      SuffixCancels("teleport-tbot-" + a, "teleport-tbot-" + b, "-config");
      PrefixCancels("teleport-tbot-", a, b);
    }
  }

  /** Register names are injective, the management cluster included. */
  lemma RegisterNamesDiffer(cfg: Config, a: string, b: string)
    requires a != b
    ensures RegisterName(cfg, a) != RegisterName(cfg, b)
  {
    var mc := cfg.managementClusterName;
    if a != mc && b != mc && mc + "-" + a == mc + "-" + b {
      PrefixCancels(mc + "-", a, b);
    }
  }

  lemma AgentNamesDiffer(a: string, b: string, app: string)
    requires a != b
    ensures GetAppName(a, app) != GetAppName(b, app)
  {
    if GetAppName(a, app) == GetAppName(b, app) {
      assert a + "-" + app == a + ("-" + app) && b + "-" + app == b + ("-" + app);
      SuffixCancels(a, b, "-" + app);
    }
  }

  /** Clusters that do not interfere are disjoint. */
  lemma NamesDisjoint(cfg: Config, a: Key, b: Key)
    requires !Interferes(cfg, a, b)
    ensures Disjoint(cfg, NamesOf(cfg, a), NamesOf(cfg, b))
  {
    SecretNamesDiffer(a.name, b.name);
    SecretNamesDiffer(b.name, a.name);
    ConfigMapNamesDiffer(a.name, b.name, cfg.appName);
    RegisterNamesDiffer(cfg, a.name, b.name);
    AgentNamesDiffer(a.name, b.name, cfg.appName);
  }

  // --- Isolation -------------------------------------------------------------------------------------------

  predicate BotUntouched(m: Names, w: World, v: World) {
    && Lookup(v.secrets, m.kubeconfig) == Lookup(w.secrets, m.kubeconfig)
    && Lookup(v.configMaps, m.botConfigMap) == Lookup(w.configMaps, m.botConfigMap)
    && (InHelm(v, m.bot, m.botConfigMap.name) <==> InHelm(w, m.bot, m.botConfigMap.name))
    && (InApp(v, m.bot, m.botConfigMap.name) <==> InApp(w, m.bot, m.botConfigMap.name))
  }

  /** Everything that belongs to `m` is as it was. */
  predicate Untouched(cfg: Config, m: Names, w: World, v: World) {
    && Lookup(v.clusters, m.cluster) == Lookup(w.clusters, m.cluster)
    && Lookup(v.secrets, m.secret) == Lookup(w.secrets, m.secret)
    && Lookup(v.configMaps, m.configMap) == Lookup(w.configMaps, m.configMap)
    && (InHelm(v, m.agent, m.configMap.name) <==> InHelm(w, m.agent, m.configMap.name))
    && (InApp(v, m.agent, m.configMap.name) <==> InApp(w, m.agent, m.configMap.name))
    && v.helmReleases.Keys == w.helmReleases.Keys && v.apps.Keys == w.apps.Keys
    && AgentVersion(v, m.agent) == AgentVersion(w, m.agent)
    && Labelled(v.tokens, m.register) == Labelled(w.tokens, m.register)
    && (cfg.botEnabled ==> BotUntouched(m, w, v))
  }

  lemma OtherReference(cfg: Config, n: Names, w: World, v: World, resource: Key, name: string)
    requires Footprint(cfg, n, w, v) && name !in OwnNames(cfg, n, resource)
    ensures InHelm(v, resource, name) <==> InHelm(w, resource, name)
    ensures InApp(v, resource, name) <==> InApp(w, resource, name)
  {
    if resource in w.helmReleases {
      var drop := HelmReferences(cfg, n, resource);
      assert HelmAlike(cfg, n, resource, w.helmReleases[resource], v.helmReleases[resource]);
      DiscardMember(Items(GetValuesFrom(w.helmReleases[resource])), drop, HelmReference(name));
      DiscardMember(Items(GetValuesFrom(v.helmReleases[resource])), drop, HelmReference(name));
    }
    if resource in w.apps {
      var drop := AppReferences(cfg, n, resource);
      assert AppAlike(cfg, n, resource, w.apps[resource], v.apps[resource]);
      DiscardMember(Items(w.apps[resource].extraConfigs), drop, AppReference(name, resource.ns));
      DiscardMember(Items(v.apps[resource].extraConfigs), drop, AppReference(name, resource.ns));
    }
  }

  lemma OtherEntry<V>(a: map<Key, V>, b: map<Key, V>, drop: set<Key>, k: Key)
    requires a - drop == b - drop && k !in drop
    ensures Lookup(a, k) == Lookup(b, k)
  {
    assert k in a <==> k in a - drop;
    assert k in b <==> k in b - drop;
    if k in a {
      assert (a - drop)[k] == a[k] && (b - drop)[k] == b[k];
    }
  }

  lemma FootprintBotUntouched(cfg: Config, n: Names, m: Names, w: World, v: World)
    requires Footprint(cfg, n, w, v) && Disjoint(cfg, n, m) && cfg.botEnabled
    ensures BotUntouched(m, w, v)
  {
    OtherEntry(w.secrets, v.secrets, SecretKeys(cfg, n), m.kubeconfig);
    OtherEntry(w.configMaps, v.configMaps, ConfigMapKeys(cfg, n), m.botConfigMap);
    OtherReference(cfg, n, w, v, m.bot, m.botConfigMap.name);
  }

  lemma FootprintUntouched(cfg: Config, n: Names, m: Names, w: World, v: World)
    requires Footprint(cfg, n, w, v) && Disjoint(cfg, n, m)
    ensures Untouched(cfg, m, w, v)
  {
    OtherEntry(w.clusters, v.clusters, {n.cluster}, m.cluster);
    OtherEntry(w.secrets, v.secrets, SecretKeys(cfg, n), m.secret);
    OtherEntry(w.configMaps, v.configMaps, ConfigMapKeys(cfg, n), m.configMap);
    OtherReference(cfg, n, w, v, m.agent, m.configMap.name);
    OtherLabel(w.tokens, n.register, m.register);
    OtherLabel(v.tokens, n.register, m.register);
    VersionUntouched(cfg, n, m, w, v);
    if cfg.botEnabled {
      FootprintBotUntouched(cfg, n, m, w, v);
    }
  }

  lemma VersionUntouched(cfg: Config, n: Names, m: Names, w: World, v: World)
    requires Footprint(cfg, n, w, v)
    ensures AgentVersion(v, m.agent) == AgentVersion(w, m.agent)
  {
    if m.agent in w.helmReleases {
      assert HelmAlike(cfg, n, m.agent, w.helmReleases[m.agent], v.helmReleases[m.agent]);
    } else if m.agent in w.apps {
      assert AppAlike(cfg, n, m.agent, w.apps[m.agent], v.apps[m.agent]);
    }
  }

  lemma ManageContained(cfg: Config, w: World, k: Key, c: Cluster, roles: seq<string>)
    requires GoodGenerator(cfg) && FreshNames(cfg, w)
    ensures Contained(cfg, NamesOf(cfg, k), w, Manage(cfg, w, k, c, roles).w)
  {
    if c.deleting {
      DeregisterContained(cfg, NamesOf(cfg, k), w, c);
    } else {
      RegisterContained(cfg, NamesOf(cfg, k), w, c, roles);
    }
  }

  lemma GateOnlyLater(cfg: Config, w: World, mem: Memory)
    ensures OnlyLater(w, Gate(cfg, w, mem).run.w)
  {
    CallOnlyLater(w);
    if Call(w).Ok? {
      CallOnlyLater(Call(w).w);
    }
  }

  /** What precedes the work on a cluster takes time and nothing else. */
  lemma ReconcileStarts(cfg: Config, w: World, mem: Memory, k: Key)
    ensures var o := Reconcile(cfg, w, mem, k);
            || (OnlyLater(w, o.run.w) && (o.run.Fail? || k !in w.clusters))
            || (exists v :: OnlyLater(w, v) && k in w.clusters
                            && o.run == Manage(cfg, v, k, w.clusters[k], RolesFor(k in w.appsEnabled)))
  {
    var g := GetCluster(w, k);
    CallOnlyLater(w);
    if g.Ok? && g.value.Some? {
      CallOnlyLater(g.w);
      var e := AreTeleportAppsEnabled(g.w, k);
      if e.Ok? {
        var gate := Gate(cfg, e.w, mem.(lastAssignedRoles := RolesFor(e.value)));
        GateOnlyLater(cfg, e.w, mem.(lastAssignedRoles := RolesFor(e.value)));
        assert OnlyLater(w, gate.run.w);
      }
    }
  }

  lemma ReconcileContained(cfg: Config, w: World, mem: Memory, k: Key)
    requires GoodGenerator(cfg) && FreshNames(cfg, w)
    ensures Contained(cfg, NamesOf(cfg, k), w, Reconcile(cfg, w, mem, k).run.w)
  {
    ReconcileStarts(cfg, w, mem, k);
    var n, o := NamesOf(cfg, k), Reconcile(cfg, w, mem, k);
    if OnlyLater(w, o.run.w) {
      OnlyLaterContained(cfg, n, w, o.run.w);
    } else {
      var v :| OnlyLater(w, v) && k in w.clusters
               && o.run == Manage(cfg, v, k, w.clusters[k], RolesFor(k in w.appsEnabled));
      OnlyLaterContained(cfg, n, w, v);
      ManageContained(cfg, v, k, w.clusters[k], RolesFor(k in w.appsEnabled));
      ContainedTransitive(cfg, n, w, v, o.run.w);
    }
  }

  /** Isolation: reconciling cluster a, live or deleting, and wherever it stops, leaves every cluster b that it does
      not interfere with untouched. */
  lemma ReconcileIsolated(cfg: Config, w: World, mem: Memory, a: Key, b: Key)
    requires GoodGenerator(cfg) && FreshNames(cfg, w) && !Interferes(cfg, a, b)
    ensures Untouched(cfg, NamesOf(cfg, b), w, Reconcile(cfg, w, mem, a).run.w)
  {
    ReconcileContained(cfg, w, mem, a);
    NamesDisjoint(cfg, a, b);
    FootprintUntouched(cfg, NamesOf(cfg, a), NamesOf(cfg, b), w, Reconcile(cfg, w, mem, a).run.w);
  }
}
