/** The finalizer guards everything the operator writes for a cluster. */
module Ownership {
  import opened Prelude
  import opened Keys
  import opened Documents
  import opened References
  import opened Environment
  import opened Machine
  import opened Effects
  import opened Steps
  import opened Injection
  import opened Registration
  import opened Removal

  predicate InHelm(w: World, resource: Key, name: string) {
    resource in w.helmReleases && HelmReference(name) in Items(GetValuesFrom(w.helmReleases[resource]))
  }

  predicate InApp(w: World, resource: Key, name: string) {
    resource in w.apps && AppReference(name, resource.ns) in Items(w.apps[resource].extraConfigs)
  }

  /** Something the operator wrote for the cluster exists: its Secret, a ConfigMap or a reference. What concerns
      the bot is the operator's only if the bot is enabled, here and below. */
  predicate Owned(cfg: Config, n: Names, w: World) {
    || n.secret in w.secrets
    || n.configMap in w.configMaps
    || InHelm(w, n.agent, n.configMap.name) || InApp(w, n.agent, n.configMap.name)
    || (cfg.botEnabled && (n.botConfigMap in w.configMaps
                           || InHelm(w, n.bot, n.botConfigMap.name) || InApp(w, n.bot, n.botConfigMap.name)))
  }

  /** Where a HelmRelease takes precedence over an App of the same name, the App holds no reference. */
  predicate OneKind(w: World, resource: Key, name: string) {
    resource in w.helmReleases ==> !InApp(w, resource, name)
  }

  predicate Guarded(cfg: Config, n: Names, w: World) {
    && (Owned(cfg, n, w) ==> Finalized(w, n.cluster))
    && OneKind(w, n.agent, n.configMap.name)
    && (cfg.botEnabled ==> OneKind(w, n.bot, n.botConfigMap.name))
  }

  predicate Uniform(cfg: Config, n: Names, w: World) {
    OneKind(w, n.agent, n.configMap.name) && (cfg.botEnabled ==> OneKind(w, n.bot, n.botConfigMap.name))
  }

  // --- Registering -------------------------------------------------------------------------------------

  lemma WithReferenceUniform(w: World, resource: Key, name: string, other: Key, otherName: string)
    requires OneKind(w, other, otherName)
    ensures OneKind(WithReference(w, resource, name), other, otherName)
  {
  }

  lemma EnsureReferenceUniform(cfg: Config, n: Names, w: World, resource: Key, name: string)
    requires Uniform(cfg, n, w)
    ensures var v := EnsureReference(w, resource, name).w;
            Uniform(cfg, n, v) && v.clusters == w.clusters
  {
    EnsureReferenceEffect(w, resource, name);
    WithReferenceKeeps(w, resource, name, n.agent, n.configMap.name);
    WithReferenceUniform(w, resource, name, n.agent, n.configMap.name);
    if cfg.botEnabled {
      WithReferenceUniform(w, resource, name, n.bot, n.botConfigMap.name);
    }
  }

  lemma AttachBotUniform(cfg: Config, n: Names, w: World)
    requires Uniform(cfg, n, w)
    ensures var v := AttachBot(w, n).w;
            Uniform(cfg, n, v) && v.clusters == w.clusters
  {
    EnsureTbotEffect(w, n);
    var r := EnsureTbotConfigMap(w, n);
    if r.Ok? {
      EnsureReferenceUniform(cfg, n, r.w, n.bot, n.botConfigMap.name);
    }
  }

  lemma InjectUniform(cfg: Config, n: Names, w: World)
    requires Uniform(cfg, n, w)
    ensures var v := Inject(cfg, w, n).w;
            Uniform(cfg, n, v) && v.clusters == w.clusters
  {
    EnsureReferenceUniform(cfg, n, w, n.agent, n.configMap.name);
    var r := EnsureReference(w, n.agent, n.configMap.name);
    if r.Ok? {
      CallOnlyLater(r.w);
      AttachBotUniform(cfg, n, Call(r.w).w);
    }
  }

  lemma ConfigMapStepUniform(cfg: Config, n: Names, w: World, roles: seq<string>, tka: string)
    ensures ConfigMapStepFrame(w, ConfigMapStep(cfg, w, n, roles, tka).w)
  {
    CallOnlyLater(w);
    var w1 := Call(w).w;
    if Call(w).Ok? {
      if n.configMap in w.configMaps {
        var data := w.configMaps[n.configMap];
        if GetTokenFromConfigMap(data).Some? {
          RotateFrame(cfg, n, w1, data, GetTokenFromConfigMap(data).value, roles, tka);
        }
      } else {
        GenerateFrame(cfg, w1, n.register, roles);
        var t := GenerateToken(cfg, w1, n.register, roles);
        if t.Ok? {
          CreateValuesFrame(cfg, t.w, n, t.value, roles, tka);
        }
      }
    }
  }

  lemma WriteValuesFrame(cfg: Config, n: Names, w: World, data: Data, token: string, roles: seq<string>, tka: string)
    ensures ConfigMapStepFrame(w, WriteValues(cfg, w, n, data, token, roles, tka).w)
  {
  }

  lemma RotateFrame(cfg: Config, n: Names, w: World, data: Data, token: string, roles: seq<string>, tka: string)
    ensures ConfigMapStepFrame(w, Rotate(cfg, w, n, data, token, roles, tka).w)
  {
    CallOnlyLater(w);
    var c := CheckToken(w, n.register, token, Roles.RolesToString(roles));
    assert SameObjects(w, c.w);
    if c.Ok? {
      if c.value {
        WriteValuesFrame(cfg, n, c.w, data, token, roles, tka);
      } else {
        GenerateFrame(cfg, c.w, n.register, roles);
        var t := GenerateToken(cfg, c.w, n.register, roles);
        if t.Ok? {
          WriteValuesFrame(cfg, n, t.w, data, t.value, roles, tka);
        }
      }
    }
  }

  lemma PublishUniform(cfg: Config, n: Names, w: World, roles: seq<string>, tka: string)
    requires Uniform(cfg, n, w)
    ensures var v := Publish(cfg, w, n, roles, tka).w;
            Uniform(cfg, n, v) && v.clusters == w.clusters
  {
    ConfigMapStepUniform(cfg, n, w, roles, tka);
    var r := ConfigMapStep(cfg, w, n, roles, tka);
    if r.Ok? {
      InjectUniform(cfg, n, r.w);
    }
  }

  lemma PrepareGuarded(cfg: Config, n: Names, w: World, c: Cluster)
    requires GoodGenerator(cfg) && FreshNames(cfg, w) && Guarded(cfg, n, w)
    requires n.cluster in w.clusters && w.clusters[n.cluster] == c
    ensures var r := Prepare(cfg, w, n, c);
            Guarded(cfg, n, r.w) && (r.Ok? ==> Finalized(r.w, n.cluster))
  {
    AddFinalizerEffect(w, n.cluster, c);
    var r1 := AddFinalizer(w, n.cluster, c);
    if r1.Ok? {
      SecretStepEffect(cfg, r1.w, n);
      var r2 := SecretStep(cfg, r1.w, n);
      if r2.Ok? {
        VersionEffect(r2.w, n.agent);
      }
    }
  }

  /** The finalizer comes first: wherever a live reconcile stops, what it wrote is guarded. */
  lemma RegisterGuarded(cfg: Config, n: Names, w: World, c: Cluster, roles: seq<string>)
    requires GoodGenerator(cfg) && FreshNames(cfg, w) && Guarded(cfg, n, w)
    requires n.cluster in w.clusters && w.clusters[n.cluster] == c
    ensures Guarded(cfg, n, Register(cfg, w, n, c, roles).w)
  {
    PrepareGuarded(cfg, n, w, c);
    var r := Prepare(cfg, w, n, c);
    if r.Ok? {
      PublishUniform(cfg, n, r.w, roles, r.value);
    }
  }

  // --- Deregistering -------------------------------------------------------------------------------------

  /** What `b` holds under `k`, `a` held. */
  predicate Survives<V(==)>(a: map<Key, V>, b: map<Key, V>, k: Key) {
    k in b ==> k in a && b[k] == a[k]
  }

  predicate ObjectsSurvive(cfg: Config, n: Names, w: World, v: World) {
    && Survives(w.secrets, v.secrets, n.secret)
    && Survives(w.configMaps, v.configMaps, n.configMap)
    && (cfg.botEnabled ==> Survives(w.configMaps, v.configMaps, n.botConfigMap))
  }

  predicate ReferencesSurvive(cfg: Config, n: Names, w: World, v: World) {
    && (InHelm(v, n.agent, n.configMap.name) ==> InHelm(w, n.agent, n.configMap.name))
    && (InApp(v, n.agent, n.configMap.name) ==> InApp(w, n.agent, n.configMap.name))
    && (cfg.botEnabled && InHelm(v, n.bot, n.botConfigMap.name) ==> InHelm(w, n.bot, n.botConfigMap.name))
    && (cfg.botEnabled && InApp(v, n.bot, n.botConfigMap.name) ==> InApp(w, n.bot, n.botConfigMap.name))
  }

  /** Nothing of the cluster came into being or changed its contents. */
  predicate NothingAdded(cfg: Config, n: Names, w: World, v: World) {
    ObjectsSurvive(cfg, n, w, v) && ReferencesSurvive(cfg, n, w, v)
  }

  predicate Shrunk(cfg: Config, n: Names, w: World, v: World) {
    && NothingAdded(cfg, n, w, v)
    && v.helmReleases.Keys == w.helmReleases.Keys && v.apps.Keys == w.apps.Keys
    && v.clusters == w.clusters
  }

  lemma ShrunkTransitive(cfg: Config, n: Names, u: World, v: World, w: World)
    requires Shrunk(cfg, n, u, v) && Shrunk(cfg, n, v, w)
    ensures Shrunk(cfg, n, u, w)
  {
  }

  lemma NothingAddedOwned(cfg: Config, n: Names, w: World, v: World)
    requires NothingAdded(cfg, n, w, v)
    ensures Owned(cfg, n, v) ==> Owned(cfg, n, w)
  {
  }

  lemma ShrunkGuarded(cfg: Config, n: Names, w: World, v: World)
    requires Shrunk(cfg, n, w, v)
    ensures Uniform(cfg, n, w) ==> Uniform(cfg, n, v)
    ensures Guarded(cfg, n, w) ==> Guarded(cfg, n, v)
  {
    NothingAddedOwned(cfg, n, w, v);
  }

  /** References that are the same survive. */
  lemma SameReferencesSurvive(cfg: Config, n: Names, w: World, v: World)
    requires SameResources(w, v)
    ensures ReferencesSurvive(cfg, n, w, v)
  {
  }

  lemma DeleteSecretShrinks(cfg: Config, n: Names, w: World, k: Key)
    ensures var r := DeleteSecret(w, k);
            && Shrunk(cfg, n, w, r.w) && r.w.configMaps == w.configMaps && SameResources(w, r.w)
            && r.w.secrets == (if r.Ok? then w.secrets - {k} else w.secrets)
  {
    SameReferencesSurvive(cfg, n, w, DeleteSecret(w, k).w);
  }

  lemma DeleteConfigMapShrinks(cfg: Config, n: Names, w: World, k: Key)
    ensures var r := DeleteConfigMap(w, k);
            && Shrunk(cfg, n, w, r.w) && r.w.secrets == w.secrets && SameResources(w, r.w)
            && r.w.configMaps == (if r.Ok? then w.configMaps - {k} else w.configMaps)
  {
    SameReferencesSurvive(cfg, n, w, DeleteConfigMap(w, k).w);
  }

  lemma DeleteTokenShrinks(cfg: Config, n: Names, w: World)
    ensures Shrunk(cfg, n, w, DeleteToken(w, n.register).w)
  {
    DeleteTokenFrame(w, n.register);
    SameReferencesSurvive(cfg, n, w, DeleteToken(w, n.register).w);
  }

  lemma WithoutReferenceShrinks(w: World, resource: Key, name: string, other: Key, otherName: string)
    ensures var v := WithoutReference(w, resource, name);
            && (InHelm(v, other, otherName) ==> InHelm(w, other, otherName))
            && (InApp(v, other, otherName) ==> InApp(w, other, otherName))
            && v.helmReleases.Keys == w.helmReleases.Keys && v.apps.Keys == w.apps.Keys
            && v.secrets == w.secrets && v.configMaps == w.configMaps && v.clusters == w.clusters
  {
    WithoutIsStrip(w, resource, name);
    if resource in w.helmReleases {
      DiscardMember(Items(GetValuesFrom(w.helmReleases[resource])), {HelmReference(name)}, HelmReference(otherName));
    } else if resource in w.apps {
      DiscardMember(Items(w.apps[resource].extraConfigs), {AppReference(name, resource.ns)}, AppReference(otherName, resource.ns));
    }
  }

  /** Removal from the preferred kind is removal altogether, when the other kind holds nothing. */
  lemma WithoutReferenceRemoves(w: World, resource: Key, name: string)
    requires OneKind(w, resource, name)
    ensures var v := WithoutReference(w, resource, name);
            !InHelm(v, resource, name) && !InApp(v, resource, name)
  {
    WithoutIsStrip(w, resource, name);
    StrippedReference(w, resource, name);
  }

  lemma DeleteReferenceShrinks(cfg: Config, n: Names, w: World, resource: Key, name: string)
    ensures var r := DeleteReference(w, resource, name);
            && Shrunk(cfg, n, w, r.w) && r.w.secrets == w.secrets && r.w.configMaps == w.configMaps
            && (r.Ok? && OneKind(w, resource, name) ==> !InHelm(r.w, resource, name) && !InApp(r.w, resource, name))
  {
    DeleteReferenceObjects(w, resource, name);
    WithoutReferenceShrinks(w, resource, name, n.agent, n.configMap.name);
    WithoutReferenceShrinks(w, resource, name, n.bot, n.botConfigMap.name);
    if OneKind(w, resource, name) {
      WithoutReferenceRemoves(w, resource, name);
    }
  }

  predicate NoReference(w: World, resource: Key, name: string) {
    !InHelm(w, resource, name) && !InApp(w, resource, name)
  }

  predicate NoBot(n: Names, w: World) {
    n.botConfigMap !in w.configMaps && NoReference(w, n.bot, n.botConfigMap.name)
  }

  predicate NoValues(n: Names, w: World) {
    n.secret !in w.secrets && n.configMap !in w.configMaps
  }

  lemma ShrunkKeepsAbsence(cfg: Config, n: Names, w: World, v: World)
    requires Shrunk(cfg, n, w, v)
    ensures NoValues(n, w) ==> NoValues(n, v)
    ensures cfg.botEnabled && NoBot(n, w) ==> NoBot(n, v)
  {
  }

  lemma RevokeShrinks(cfg: Config, n: Names, w: World)
    ensures var r := Revoke(w, n);
            Shrunk(cfg, n, w, r.w) && (r.Ok? ==> NoValues(n, r.w))
  {
    DeleteTokenShrinks(cfg, n, w);
    var r1 := DeleteToken(w, n.register);
    if r1.Ok? {
      DeleteSecretShrinks(cfg, n, r1.w, n.secret);
      var r2 := DeleteSecret(r1.w, n.secret);
      ShrunkTransitive(cfg, n, w, r1.w, r2.w);
      if r2.Ok? {
        DeleteConfigMapShrinks(cfg, n, r2.w, n.configMap);
        ShrunkTransitive(cfg, n, w, r2.w, DeleteConfigMap(r2.w, n.configMap).w);
      }
    }
  }

  lemma DeleteBotShrinks(cfg: Config, n: Names, w: World)
    ensures var r := DeleteBot(cfg, w, n);
            Shrunk(cfg, n, w, r.w) && (r.Ok? && cfg.botEnabled && Uniform(cfg, n, w) ==> NoBot(n, r.w))
  {
    if cfg.botEnabled {
      DeleteReferenceShrinks(cfg, n, w, n.bot, n.botConfigMap.name);
      var r1 := DeleteReference(w, n.bot, n.botConfigMap.name);
      if r1.Ok? {
        DeleteConfigMapShrinks(cfg, n, r1.w, n.botConfigMap);
        var r2 := DeleteConfigMap(r1.w, n.botConfigMap);
        ShrunkTransitive(cfg, n, w, r1.w, r2.w);
        if r2.Ok? {
          DeleteSecretShrinks(cfg, n, r2.w, n.kubeconfig);
          ShrunkTransitive(cfg, n, w, r2.w, DeleteSecret(r2.w, n.kubeconfig).w);
        }
      }
    }
  }

  /** Taking the finalizer off changes nothing else. */
  lemma RemoveFinalizerSurvives(cfg: Config, n: Names, w: World)
    requires n.cluster in w.clusters
    ensures var r := RemoveFinalizer(w, n.cluster, w.clusters[n.cluster]);
            && NothingAdded(cfg, n, w, r.w) && (Uniform(cfg, n, w) ==> Uniform(cfg, n, r.w))
            && (r.Fail? ==> r.w.clusters == w.clusters)
  {
    RemoveFinalizerToward(cfg, n, w);
    SameReferencesSurvive(cfg, n, w, RemoveFinalizer(w, n.cluster, w.clusters[n.cluster]).w);
  }

  lemma NothingAddedTransitive(cfg: Config, n: Names, u: World, v: World, w: World)
    requires NothingAdded(cfg, n, u, v) && NothingAdded(cfg, n, v, w)
    ensures NothingAdded(cfg, n, u, w)
  {
  }

  lemma ReleaseSurvives(cfg: Config, n: Names, w: World)
    requires n.cluster in w.clusters
    ensures NothingAdded(cfg, n, w, Release(w, n, w.clusters[n.cluster]).w)
  {
    DeleteReferenceShrinks(cfg, n, w, n.agent, n.configMap.name);
    var r := DeleteReference(w, n.agent, n.configMap.name);
    if r.Ok? {
      RemoveFinalizerSurvives(cfg, n, r.w);
      NothingAddedTransitive(cfg, n, w, r.w, RemoveFinalizer(r.w, n.cluster, w.clusters[n.cluster]).w);
    }
  }

  /** A deregistration adds nothing of the cluster's and changes nothing that it leaves, wherever it stops. */
  lemma DeregisterSurvives(cfg: Config, n: Names, w: World)
    requires n.cluster in w.clusters
    ensures NothingAdded(cfg, n, w, Deregister(cfg, w, n, w.clusters[n.cluster]).w)
  {
    RevokeShrinks(cfg, n, w);
    var r1 := Revoke(w, n);
    if r1.Ok? {
      DeleteBotShrinks(cfg, n, r1.w);
      var r2 := DeleteBot(cfg, r1.w, n);
      ShrunkTransitive(cfg, n, w, r1.w, r2.w);
      if r2.Ok? {
        ReleaseSurvives(cfg, n, r2.w);
        NothingAddedTransitive(cfg, n, w, r2.w, Release(r2.w, n, w.clusters[n.cluster]).w);
      }
    }
  }

  /** With everything else gone, so is the agent's reference, before the finalizer goes. */
  lemma ReleaseGuarded(cfg: Config, n: Names, w: World)
    requires Guarded(cfg, n, w) && n.cluster in w.clusters
    requires NoValues(n, w) && (cfg.botEnabled ==> NoBot(n, w))
    ensures var r := Release(w, n, w.clusters[n.cluster]);
            Guarded(cfg, n, r.w) && (r.Ok? ==> !Owned(cfg, n, r.w))
  {
    DeleteReferenceShrinks(cfg, n, w, n.agent, n.configMap.name);
    var r := DeleteReference(w, n.agent, n.configMap.name);
    ShrunkGuarded(cfg, n, w, r.w);
    if r.Ok? {
      ShrunkKeepsAbsence(cfg, n, w, r.w);
      assert !Owned(cfg, n, r.w);
      RemoveFinalizerSurvives(cfg, n, r.w);
      NothingAddedOwned(cfg, n, r.w, RemoveFinalizer(r.w, n.cluster, w.clusters[n.cluster]).w);
    }
  }

  /** The finalizer goes last: wherever a deregistration stops, what is left is guarded, and when it completes
      nothing is left. */
  lemma DeregisterGuarded(cfg: Config, n: Names, w: World)
    requires Guarded(cfg, n, w) && n.cluster in w.clusters
    ensures var r := Deregister(cfg, w, n, w.clusters[n.cluster]);
            NothingAdded(cfg, n, w, r.w) && Guarded(cfg, n, r.w) && (r.Ok? ==> !Owned(cfg, n, r.w))
  {
    DeregisterSurvives(cfg, n, w);
    RevokeShrinks(cfg, n, w);
    var r1 := Revoke(w, n);
    ShrunkGuarded(cfg, n, w, r1.w);
    if r1.Ok? {
      DeleteBotShrinks(cfg, n, r1.w);
      var r2 := DeleteBot(cfg, r1.w, n);
      ShrunkGuarded(cfg, n, r1.w, r2.w);
      if r2.Ok? {
        ShrunkKeepsAbsence(cfg, n, r1.w, r2.w);
        ReleaseGuarded(cfg, n, r2.w);
      }
    }
  }

  // --- The fixed kind is needed --------------------------------------------------------------------------

  /** Apps under a HelmRelease of the same name are as they were. */
  predicate SameShadow(w: World, v: World) {
    && v.helmReleases.Keys == w.helmReleases.Keys && v.apps.Keys == w.apps.Keys
    && forall k :: k in w.helmReleases && k in w.apps ==> v.apps[k] == w.apps[k]
  }

  lemma WithoutReferenceShadow(w: World, resource: Key, name: string)
    ensures SameShadow(w, WithoutReference(w, resource, name))
  {
    WithoutIsStrip(w, resource, name);
  }

  lemma WithoutReferencesShadow(cfg: Config, n: Names, w: World)
    ensures SameShadow(w, WithoutReferences(cfg, n, w))
  {
    WithoutReferenceShadow(w, n.bot, n.botConfigMap.name);
    WithoutReferenceShadow(WithoutBot(cfg, n, w), n.agent, n.configMap.name);
  }

  lemma WithoutReferencesRemoves(cfg: Config, n: Names, w: World)
    ensures var v := WithoutReferences(cfg, n, w);
            && (OneKind(w, n.agent, n.configMap.name) <==> NoReference(v, n.agent, n.configMap.name))
            && (cfg.botEnabled ==> (OneKind(w, n.bot, n.botConfigMap.name) <==> NoReference(v, n.bot, n.botConfigMap.name)))
  {
    var u := WithoutBot(cfg, n, w);
    WithoutReferencesShadow(cfg, n, w);
    WithoutReferenceShadow(w, n.bot, n.botConfigMap.name);
    StrippedReference(w, n.bot, n.botConfigMap.name);
    StrippedReference(u, n.agent, n.configMap.name);
    WithoutReferenceShrinks(u, n.agent, n.configMap.name, n.bot, n.botConfigMap.name);
  }

  /** A complete deregistration leaves nothing of the operator's behind if and only if no App under a HelmRelease of
      the same name holds a reference: only the preferred kind is cleaned. */
  lemma DeregisterLeavesNothing(cfg: Config, n: Names, w: World)
    requires n.cluster in w.clusters && Deregister(cfg, w, n, w.clusters[n.cluster]).Ok?
    ensures !Owned(cfg, n, Deregister(cfg, w, n, w.clusters[n.cluster]).w) <==>
            OneKind(w, n.agent, n.configMap.name) && (cfg.botEnabled ==> OneKind(w, n.bot, n.botConfigMap.name))
  {
    var v := Deregister(cfg, w, n, w.clusters[n.cluster]).w;
    DeregisterClears(cfg, n, w);
    ClearedMeans(cfg, n, w);
    WithoutReferencesRemoves(cfg, n, w);
    WithoutIsStrip(w, n.bot, n.botConfigMap.name);
    assert SameResources(WithoutReferences(cfg, n, w), v);
  }

  // --- The Cluster must not vanish -------------------------------------------------------------------------

  lemma PublishKeepsSecrets(cfg: Config, n: Names, w: World, roles: seq<string>, tka: string)
    ensures Publish(cfg, w, n, roles, tka).w.secrets == w.secrets
    ensures Publish(cfg, w, n, roles, tka).w.clusters == w.clusters
  {
    ConfigMapStepUniform(cfg, n, w, roles, tka);
    var r := ConfigMapStep(cfg, w, n, roles, tka);
    if r.Ok? {
      EnsureReferenceKeeps(r.w, n.agent, n.configMap.name, n.agent, n.configMap.name);
      var e := EnsureReference(r.w, n.agent, n.configMap.name);
      if e.Ok? {
        BotStepKeeps(cfg, e.w, n);
      }
    }
  }

  /** Patching a Cluster that is gone counts as success, so a live reconcile of one that vanished under it goes on
      to write. A completed one owns a Secret, and a finalizer guards it if and only if the Cluster was still there
      to be patched. */
  lemma CompletedIsGuardedExactly(cfg: Config, n: Names, w: World, c: Cluster, roles: seq<string>)
    requires GoodGenerator(cfg) && FreshNames(cfg, w) && Register(cfg, w, n, c, roles).Ok?
    requires n.cluster in w.clusters ==> w.clusters[n.cluster] == c
    ensures var v := Register(cfg, w, n, c, roles).w;
            Owned(cfg, n, v) && (Finalized(v, n.cluster) <==> n.cluster in w.clusters)
  {
    var a := AddFinalizer(w, n.cluster, c);
    if n.cluster in w.clusters {
      AddFinalizerEffect(w, n.cluster, c);
    } else {
      CallOnlyLater(w);
    }
    assert SameTokens(w, a.w) && (Finalized(a.w, n.cluster) <==> n.cluster in w.clusters);
    SecretStepEffect(cfg, a.w, n);
    var s := SecretStep(cfg, a.w, n);
    assert n.secret in s.w.secrets && s.w.clusters == a.w.clusters;
    VersionEffect(s.w, n.agent);
    var p := GetTeleportKubeAgentVersion(s.w, n.agent);
    PublishKeepsSecrets(cfg, n, p.w, roles, p.value);
  }

  // --- How much is left --------------------------------------------------------------------------------------

  function Count(present: bool): nat {
    if present then 1 else 0
  }

  function BotCount(n: Names, w: World): nat {
    Count(n.botConfigMap in w.configMaps)
    + Count(InHelm(w, n.bot, n.botConfigMap.name)) + Count(InApp(w, n.bot, n.botConfigMap.name))
  }

  /** The number of things the operator has written for the cluster that still exist. */
  function OwnedCount(cfg: Config, n: Names, w: World): nat {
    Count(n.secret in w.secrets) + Count(n.configMap in w.configMaps)
    + Count(InHelm(w, n.agent, n.configMap.name)) + Count(InApp(w, n.agent, n.configMap.name))
    + if cfg.botEnabled then BotCount(n, w) else 0
  }

  lemma CountIsOwned(cfg: Config, n: Names, w: World)
    ensures OwnedCount(cfg, n, w) == 0 <==> !Owned(cfg, n, w)
  {
  }

  lemma NothingAddedCount(cfg: Config, n: Names, w: World, v: World)
    requires NothingAdded(cfg, n, w, v)
    ensures OwnedCount(cfg, n, v) <= OwnedCount(cfg, n, w)
  {
  }

  /** The preferred resource of that name holds the reference. */
  predicate Held(w: World, resource: Key, name: string) {
    InHelm(w, resource, name) || (resource !in w.helmReleases && InApp(w, resource, name))
  }

  /** The number of things left is a measure of progress: every deletion that finds its object takes it down. */
  lemma DeletionsProgress(cfg: Config, n: Names, w: World, k: Key)
    ensures k == n.secret && k in w.secrets && DeleteSecret(w, k).Ok? ==>
              OwnedCount(cfg, n, DeleteSecret(w, k).w) < OwnedCount(cfg, n, w)
    ensures k in ConfigMapKeys(cfg, n) && k in w.configMaps && DeleteConfigMap(w, k).Ok? ==>
              OwnedCount(cfg, n, DeleteConfigMap(w, k).w) < OwnedCount(cfg, n, w)
  {
    DeleteSecretShrinks(cfg, n, w, k);
    DeleteConfigMapShrinks(cfg, n, w, k);
  }

  lemma HeldIsRemoved(w: World, resource: Key, name: string)
    requires Held(w, resource, name) && DeleteReference(w, resource, name).Ok?
    ensures var v := DeleteReference(w, resource, name).w;
            if resource in w.helmReleases then !InHelm(v, resource, name) else !InApp(v, resource, name)
  {
    DeleteReferenceObjects(w, resource, name);
    WithoutIsStrip(w, resource, name);
    StrippedReference(w, resource, name);
  }

  /** ... and so does every removal of a reference that the preferred resource holds. */
  lemma ReferenceRemovalProgresses(cfg: Config, n: Names, w: World, resource: Key, name: string)
    requires OwnReference(cfg, n, resource, name) && Held(w, resource, name)
    requires DeleteReference(w, resource, name).Ok?
    ensures OwnedCount(cfg, n, DeleteReference(w, resource, name).w) < OwnedCount(cfg, n, w)
  {
    DeleteReferenceShrinks(cfg, n, w, resource, name);
    HeldIsRemoved(w, resource, name);
  }
}
