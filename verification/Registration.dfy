/** A live reconcile: what it keeps wherever it stops, and where it arrives when it does not. */
module Registration {
  import opened Prelude
  import opened Roles
  import opened Keys
  import opened Documents
  import opened Tokens
  import opened References
  import opened Environment
  import opened Machine
  import opened Effects
  import opened Steps
  import opened Injection

  function AgentVersion(w: World, resource: Key): string {
    if resource in w.helmReleases then HelmChartVersion(w.helmReleases[resource])
    else if resource in w.apps then w.apps[resource].version
    else ""
  }

  predicate Finalized(w: World, k: Key) {
    k in w.clusters && FINALIZER in w.clusters[k].finalizers
  }

  predicate BotReady(cfg: Config, n: Names, w: World) {
    cfg.botEnabled && n.kubeconfig !in w.secrets ==>
      n.botConfigMap in w.configMaps && Referenced(w, n.bot, n.botConfigMap.name)
  }

  /** The goal of the operator for a live cluster, with tokens valid at `now`. */
  predicate Registered(cfg: Config, n: Names, w: World, roles: seq<string>, now: int) {
    && Finalized(w, n.cluster)
    && SecretValid(n, w.secrets, w.tokens, now)
    && ValuesCurrent(cfg, n, w.configMaps, w.tokens, roles, AgentVersion(w, n.agent), now)
    && Referenced(w, n.agent, n.configMap.name)
    && BotReady(cfg, n, w)
  }

  lemma RegisteredEarlier(cfg: Config, n: Names, w: World, roles: seq<string>, now: int, later: int)
    requires Registered(cfg, n, w, roles, later) && now <= later
    ensures Registered(cfg, n, w, roles, now)
  {
    ValidEarlier(w.tokens, n.register, w.secrets[n.secret][JOIN_TOKEN], [ROLE_NODE], now, later);
    var token := GetTokenFromConfigMap(w.configMaps[n.configMap]).value;
    ValidEarlier(w.tokens, n.register, token, roles, now, later);
  }

  // --- Steps on the goal -----------------------------------------------------------------------------

  lemma VersionEffect(w: World, resource: Key)
    ensures var r := GetTeleportKubeAgentVersion(w, resource);
            OnlyLater(w, r.w) && (r.Ok? ==> r.value == AgentVersion(w, resource))
  {
    CallOnlyLater(w);
    if Call(w).Ok? {
      CallOnlyLater(Call(w).w);
    }
  }

  lemma AddFinalizerEffect(w: World, k: Key, c: Cluster)
    requires k in w.clusters && w.clusters[k] == c
    ensures var r := AddFinalizer(w, k, c);
            && SameTokens(w, r.w) && Later(w, r.w) && SameObjects(w.(clusters := r.w.clusters), r.w)
            && (r.Ok? ==> Finalized(r.w, k))
            && (r.Fail? ==> r.w.clusters == w.clusters)
            && (Finalized(w, k) ==> r == Ok(w, ()))
  {
  }

  /** The tokens have only grown. */
  predicate Grown(w: World, v: World) {
    w.tokens <= v.tokens
  }

  lemma {:induction false} ValidAfterGrowth(tokens: seq<Token>, more: seq<Token>, registerName: string, name: string,
                         roles: seq<string>, now: int)
    requires ValidAt(tokens, registerName, name, roles, now) && tokens <= more
    ensures ValidAt(more, registerName, name, roles, now)
  {
    var u :| u in tokens && Matches(u, registerName, name) && u.expiry.Some? && u.expiry.value > now
             && multiset(LowerAll(u.roles)) == multiset(roles);
    assert u in more;
  }

  lemma NextIsNotFuture(cfg: Config, issued: nat)
    requires GoodGenerator(cfg)
    ensures NotFuture(cfg, issued + 1, cfg.generate(issued))
  {
  }

  lemma SecretStepKeeps(cfg: Config, w: World, n: Names, now: int)
    requires WellFormed(cfg, n) && FreshNames(cfg, w) && Readable(cfg, n, w) && now <= w.now
    ensures var r := SecretStep(cfg, w, n);
            && FreshNames(cfg, r.w) && Readable(cfg, n, r.w) && Grown(w, r.w)
            && SecretStepFrame(w, r.w) && Later(w, r.w)
            && (r.Ok? ==> SecretValid(n, r.w.secrets, r.w.tokens, now))
  {
    SecretStepContained(cfg, w, n);
    SecretStepEffect(cfg, w, n);
    NextIsNotFuture(cfg, w.issued);
    RolesForAreTokenRoles(false);
    var r := SecretStep(cfg, w, n);
    if SecretRotated(cfg, w, r, n) {
      MintedIsValid(cfg, w, r.w, n.register, [ROLE_NODE]);
      ValidEarlier(r.w.tokens, n.register, cfg.generate(w.issued), [ROLE_NODE], now, w.now);
    } else if r.Ok? {
      ValidEarlier(w.tokens, n.register, w.secrets[n.secret][JOIN_TOKEN], [ROLE_NODE], now, w.now);
    }
  }

  lemma ConfigMapStepKeeps(cfg: Config, w: World, n: Names, roles: seq<string>, tka: string, now: int)
    requires WellFormed(cfg, n) && TokenRoles(roles) && FreshNames(cfg, w) && Readable(cfg, n, w) && now <= w.now
    ensures var r := ConfigMapStep(cfg, w, n, roles, tka);
            && FreshNames(cfg, r.w) && Readable(cfg, n, r.w) && Grown(w, r.w)
            && ConfigMapStepFrame(w, r.w) && Later(w, r.w)
            && (r.Ok? ==> ValuesCurrent(cfg, n, r.w.configMaps, r.w.tokens, roles, tka, now))
  {
    ConfigMapStepContained(cfg, w, n, roles, tka);
    ConfigMapStepEffect(cfg, w, n, roles, tka);
    NextIsNotFuture(cfg, w.issued);
    var r := ConfigMapStep(cfg, w, n, roles, tka);
    if ValuesRotated(cfg, w, r, n, roles, tka) {
      MintedIsValid(cfg, w, r.w, n.register, roles);
      ValidEarlier(r.w.tokens, n.register, cfg.generate(w.issued), roles, now, w.now);
    } else if r.Ok? {
      ValidEarlier(w.tokens, n.register, GetTokenFromConfigMap(w.configMaps[n.configMap]).value, roles, now, w.now);
    }
  }

  /** Everything but the lists of references is as it was. */
  predicate OnlyReferences(w: World, v: World) {
    && v.clusters == w.clusters && v.appsEnabled == w.appsEnabled && v.secrets == w.secrets
    && v.configMaps == w.configMaps && SameTokens(w, v)
  }

  lemma WithReferenceKeeps(w: World, resource: Key, name: string, other: Key, otherName: string)
    ensures var v := WithReference(w, resource, name);
            && OnlyReferences(w, v)
            && AgentVersion(v, other) == AgentVersion(w, other)
            && (Referenced(w, other, otherName) ==> Referenced(v, other, otherName))
  {
    if resource in w.helmReleases {
      var hr := w.helmReleases[resource];
      SetValuesFromKeepsVersion(hr, AppendReference(GetValuesFrom(hr), HelmReference(name)));
    }
  }

  lemma EnsureReferenceKeeps(w: World, resource: Key, name: string, other: Key, otherName: string)
    ensures var r := EnsureReference(w, resource, name);
            && OnlyReferences(w, r.w) && Later(w, r.w)
            && AgentVersion(r.w, other) == AgentVersion(w, other)
            && (Referenced(w, other, otherName) ==> Referenced(r.w, other, otherName))
            && (r.Ok? ==> Referenced(r.w, resource, name))
            && (Referenced(w, resource, name) ==> SameState(w, r.w) && r.w.writes == w.writes)
  {
    EnsureReferenceEffect(w, resource, name);
    WithReferenceKeeps(w, resource, name, other, otherName);
    WithReferenceIsReferenced(w, resource, name);
  }

  lemma EnsureTbotEffect(w: World, n: Names)
    ensures var r := EnsureTbotConfigMap(w, n);
            && ConfigMapStepFrame(w, r.w) && SameTokens(w, r.w) && Later(w, r.w)
            && (r.w.configMaps == w.configMaps
                || (n.botConfigMap !in w.configMaps && r.w.configMaps == w.configMaps[n.botConfigMap := BotValues(n)]))
            && (r.Ok? ==> n.botConfigMap in r.w.configMaps)
            && (n.botConfigMap in w.configMaps ==> OnlyLater(w, r.w))
  {
    CallOnlyLater(w);
    PutConfigMap(Call(w).w, n.botConfigMap, BotValues(n));
  }

  /** From `w` to `v` only the bot's ConfigMap and lists of references changed, and neither the values ConfigMap
      nor the agent's reference nor its version were lost. */
  predicate BotFrame(n: Names, w: World, v: World) {
    && v.clusters == w.clusters && v.secrets == w.secrets && v.appsEnabled == w.appsEnabled
    && SameTokens(w, v) && Later(w, v)
    && (n.configMap in w.configMaps ==>
          n.configMap in v.configMaps && v.configMaps[n.configMap] == w.configMaps[n.configMap])
    && AgentVersion(v, n.agent) == AgentVersion(w, n.agent)
    && (Referenced(w, n.agent, n.configMap.name) ==> Referenced(v, n.agent, n.configMap.name))
  }

  lemma AttachBotKeeps(w: World, n: Names)
    ensures var r := AttachBot(w, n);
            && BotFrame(n, w, r.w)
            && (r.Ok? ==> n.botConfigMap in r.w.configMaps && Referenced(r.w, n.bot, n.botConfigMap.name))
            && (n.botConfigMap in w.configMaps && Referenced(w, n.bot, n.botConfigMap.name) ==>
                  SameState(w, r.w) && r.w.writes == w.writes)
  {
    EnsureTbotEffect(w, n);
    var e := EnsureTbotConfigMap(w, n);
    assert BotFrame(n, w, e.w);
    if e.Ok? {
      EnsureReferenceKeeps(e.w, n.bot, n.botConfigMap.name, n.agent, n.configMap.name);
      assert BotFrame(n, e.w, EnsureReference(e.w, n.bot, n.botConfigMap.name).w);
    }
  }

  lemma BotStepKeeps(cfg: Config, w: World, n: Names)
    ensures var r := BotStep(cfg, w, n);
            && BotFrame(n, w, r.w)
            && (r.Ok? ==> BotReady(cfg, n, r.w))
            && (BotReady(cfg, n, w) ==> SameState(w, r.w) && r.w.writes == w.writes)
  {
    var w1 := Call(w).w;
    CallOnlyLater(w);
    assert BotFrame(n, w, w1);
    if cfg.botEnabled && Call(w).Ok? && n.kubeconfig !in w.secrets {
      AttachBotKeeps(w1, n);
      assert BotFrame(n, w1, AttachBot(w1, n).w);
    }
  }

  /** What holds once the finalizer and the Secret are in place. */
  ghost predicate Prepared(cfg: Config, n: Names, w: World, now: int) {
    && FreshNames(cfg, w) && Readable(cfg, n, w) && now <= w.now
    && Finalized(w, n.cluster) && SecretValid(n, w.secrets, w.tokens, now)
  }

  lemma PrepareReaches(cfg: Config, w: World, n: Names, c: Cluster)
    requires WellFormed(cfg, n) && FreshNames(cfg, w) && Readable(cfg, n, w)
    requires n.cluster in w.clusters && w.clusters[n.cluster] == c
    ensures var r := Prepare(cfg, w, n, c);
            && FreshNames(cfg, r.w) && Readable(cfg, n, r.w)
            && (r.Ok? ==> Prepared(cfg, n, r.w, w.now) && r.value == AgentVersion(r.w, n.agent))
  {
    AddFinalizerEffect(w, n.cluster, c);
    var r1 := AddFinalizer(w, n.cluster, c);
    if r1.Ok? {
      SecretStepKeeps(cfg, r1.w, n, w.now);
      var r2 := SecretStep(cfg, r1.w, n);
      if r2.Ok? {
        VersionEffect(r2.w, n.agent);
      }
    }
  }

  /** ... and the ConfigMap. */
  ghost predicate Published(cfg: Config, n: Names, w: World, roles: seq<string>, now: int) {
    Prepared(cfg, n, w, now) && ValuesCurrent(cfg, n, w.configMaps, w.tokens, roles, AgentVersion(w, n.agent), now)
  }

  lemma ConfigMapStepFrameKeeps(w: World, v: World, n: Names)
    requires ConfigMapStepFrame(w, v)
    ensures AgentVersion(v, n.agent) == AgentVersion(w, n.agent) && (Finalized(v, n.cluster) <==> Finalized(w, n.cluster))
  {
  }

  lemma ConfigMapStepPublishes(cfg: Config, w: World, n: Names, roles: seq<string>, tka: string, now: int)
    requires WellFormed(cfg, n) && TokenRoles(roles) && Prepared(cfg, n, w, now) && tka == AgentVersion(w, n.agent)
    ensures var r := ConfigMapStep(cfg, w, n, roles, tka);
            Prepared(cfg, n, r.w, now) && (r.Ok? ==> Published(cfg, n, r.w, roles, now))
  {
    var r := ConfigMapStep(cfg, w, n, roles, tka);
    ConfigMapStepKeeps(cfg, w, n, roles, tka, now);
    ConfigMapStepFrameKeeps(w, r.w, n);
    ValidAfterGrowth(w.tokens, r.w.tokens, n.register, w.secrets[n.secret][JOIN_TOKEN], [ROLE_NODE], now);
  }

  lemma InjectReaches(cfg: Config, w: World, n: Names, roles: seq<string>, now: int)
    requires WellFormed(cfg, n) && Published(cfg, n, w, roles, now)
    ensures var r := Inject(cfg, w, n);
            FreshNames(cfg, r.w) && Readable(cfg, n, r.w) && (r.Ok? ==> Registered(cfg, n, r.w, roles, now))
  {
    var r := EnsureReference(w, n.agent, n.configMap.name);
    EnsureReferenceKeeps(w, n.agent, n.configMap.name, n.agent, n.configMap.name);
    if r.Ok? {
      assert Published(cfg, n, r.w, roles, now);
      BotStepKeeps(cfg, r.w, n);
    }
  }

  lemma PublishReaches(cfg: Config, w: World, n: Names, roles: seq<string>, tka: string, now: int)
    requires WellFormed(cfg, n) && TokenRoles(roles) && Prepared(cfg, n, w, now) && tka == AgentVersion(w, n.agent)
    ensures var r := Publish(cfg, w, n, roles, tka);
            FreshNames(cfg, r.w) && Readable(cfg, n, r.w) && (r.Ok? ==> Registered(cfg, n, r.w, roles, now))
  {
    ConfigMapStepPublishes(cfg, w, n, roles, tka, now);
    var r := ConfigMapStep(cfg, w, n, roles, tka);
    if r.Ok? {
      InjectReaches(cfg, r.w, n, roles, now);
    }
  }

  /** Wherever a live reconcile stops, token names are still fresh and the stored Secret and ConfigMap readable
      under this cluster's name; if it completes, the cluster is registered with tokens valid at its start. */
  lemma RegisterReaches(cfg: Config, w: World, n: Names, c: Cluster, roles: seq<string>)
    requires WellFormed(cfg, n) && TokenRoles(roles) && FreshNames(cfg, w) && Readable(cfg, n, w)
    requires n.cluster in w.clusters && w.clusters[n.cluster] == c
    ensures var r := Register(cfg, w, n, c, roles);
            FreshNames(cfg, r.w) && Readable(cfg, n, r.w) && (r.Ok? ==> Registered(cfg, n, r.w, roles, w.now))
  {
    PrepareReaches(cfg, w, n, c);
    var r := Prepare(cfg, w, n, c);
    if r.Ok? {
      PublishReaches(cfg, r.w, n, roles, r.value, w.now);
    }
  }
}
