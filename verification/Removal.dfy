/** Deregistration: what is left, in which order, and that it can be resumed. */
module Removal {
  import opened Prelude
  import opened Keys
  import opened Documents
  import opened Tokens
  import opened References
  import opened Environment
  import opened Machine
  import opened Effects
  import opened Steps
  import opened Injection
  import opened Registration
  import opened Progress

  // --- Removing references ---------------------------------------------------------------------------

  lemma AfterDeleteCommutes<T>(kind: Kind, refs: Slice<T>, a: T, b: T)
    ensures AfterDelete(kind, AfterDelete(kind, refs, a), b) == AfterDelete(kind, AfterDelete(kind, refs, b), a)
    ensures AfterDelete(kind, AfterDelete(kind, refs, a), a) == AfterDelete(kind, refs, a)
  {
    DiscardTwice(Items(refs), {a}, {b});
    DiscardTwice(Items(refs), {b}, {a});
    DiscardTwice(Items(refs), {a}, {a});
    assert {a} + {b} == {b} + {a} && {a} + {a} == {a};
  }

  function StripHelm(hr: HelmRelease, name: string): HelmRelease {
    SetValuesFrom(hr, AfterDelete(HelmKind, GetValuesFrom(hr), HelmReference(name)))
  }

  function StripApp(app: App, ns: string, name: string): App {
    app.(extraConfigs := AfterDelete(AppKind, app.extraConfigs, AppReference(name, ns)))
  }

  lemma StripCommutes(hr: HelmRelease, app: App, ns: string, a: string, b: string)
    ensures StripHelm(StripHelm(hr, a), b) == StripHelm(StripHelm(hr, b), a)
    ensures StripHelm(StripHelm(hr, a), a) == StripHelm(hr, a)
    ensures StripApp(StripApp(app, ns, a), ns, b) == StripApp(StripApp(app, ns, b), ns, a)
    ensures StripApp(StripApp(app, ns, a), ns, a) == StripApp(app, ns, a)
  {
    AfterDeleteCommutes(HelmKind, GetValuesFrom(hr), HelmReference(a), HelmReference(b));
    AfterDeleteCommutes(AppKind, app.extraConfigs, AppReference(a, ns), AppReference(b, ns));
  }

  lemma WithoutIsStrip(w: World, resource: Key, name: string)
    ensures WithoutReference(w, resource, name) ==
            if resource in w.helmReleases then
              w.(helmReleases := w.helmReleases[resource := StripHelm(w.helmReleases[resource], name)])
            else if resource in w.apps then
              w.(apps := w.apps[resource := StripApp(w.apps[resource], resource.ns, name)])
            else w
  {
  }

  lemma UpdateCommutes<K, V>(m: map<K, V>, a: K, x: V, b: K, y: V)
    requires a != b
    ensures m[a := x][b := y] == m[b := y][a := x]
  {
  }

  lemma UpdateTwice<K, V>(m: map<K, V>, a: K, x: V, y: V)
    ensures m[a := x][a := y] == m[a := y]
  {
  }

  lemma WithoutTwice(w: World, resource: Key, name: string)
    ensures WithoutReference(WithoutReference(w, resource, name), resource, name) == WithoutReference(w, resource, name)
  {
    WithoutIsStrip(w, resource, name);
    WithoutIsStrip(WithoutReference(w, resource, name), resource, name);
    if resource in w.helmReleases {
      var hr := w.helmReleases[resource];
      StripCommutes(hr, App("", Nil), "", name, name);
      UpdateTwice(w.helmReleases, resource, StripHelm(hr, name), StripHelm(hr, name));
    } else if resource in w.apps {
      var app := w.apps[resource];
      StripCommutes(HelmRelease([], None), app, resource.ns, name, name);
      UpdateTwice(w.apps, resource, StripApp(app, resource.ns, name), StripApp(app, resource.ns, name));
    }
  }

  lemma WithoutCommutes(w: World, r: Key, a: string, s: Key, b: string)
    ensures WithoutReference(WithoutReference(w, r, a), s, b) == WithoutReference(WithoutReference(w, s, b), r, a)
  {
    WithoutIsStrip(w, r, a);
    WithoutIsStrip(w, s, b);
    WithoutIsStrip(WithoutReference(w, r, a), s, b);
    WithoutIsStrip(WithoutReference(w, s, b), r, a);
    if r in w.helmReleases && s in w.helmReleases {
      var hr, hs := w.helmReleases[r], w.helmReleases[s];
      if r == s {
        StripCommutes(hr, App("", Nil), "", a, b);
        UpdateTwice(w.helmReleases, r, StripHelm(hr, a), StripHelm(StripHelm(hr, a), b));
        UpdateTwice(w.helmReleases, r, StripHelm(hr, b), StripHelm(StripHelm(hr, b), a));
      } else {
        UpdateCommutes(w.helmReleases, r, StripHelm(hr, a), s, StripHelm(hs, b));
      }
    } else if r !in w.helmReleases && s !in w.helmReleases && r in w.apps && s in w.apps {
      var ar, as_ := w.apps[r], w.apps[s];
      if r == s {
        StripCommutes(HelmRelease([], None), ar, r.ns, a, b);
        UpdateTwice(w.apps, r, StripApp(ar, r.ns, a), StripApp(StripApp(ar, r.ns, a), r.ns, b));
        UpdateTwice(w.apps, r, StripApp(ar, r.ns, b), StripApp(StripApp(ar, r.ns, b), r.ns, a));
      } else {
        UpdateCommutes(w.apps, r, StripApp(ar, r.ns, a), s, StripApp(as_, s.ns, b));
      }
    }
  }

  // --- The end state -----------------------------------------------------------------------------------

  function WithoutBot(cfg: Config, n: Names, w: World): World {
    if cfg.botEnabled then WithoutReference(w, n.bot, n.botConfigMap.name) else w
  }

  function WithoutReferences(cfg: Config, n: Names, w: World): World {
    WithoutReference(WithoutBot(cfg, n, w), n.agent, n.configMap.name)
  }

  /** The Clusters once the operator's finalizer is off `k`. */
  function Released(clusters: map<Key, Cluster>, k: Key): map<Key, Cluster> {
    if k !in clusters || FINALIZER !in clusters[k].finalizers then clusters
    else
      var rest := Discard(clusters[k].finalizers, {FINALIZER});
      if clusters[k].deleting && rest == [] then clusters - {k} else clusters[k := clusters[k].(finalizers := rest)]
  }

  /** The objects after deregistration, in one piece. */
  function Cleared(cfg: Config, n: Names, w: World): World {
    WithoutReferences(cfg, n, w).(
      secrets := w.secrets - SecretKeys(cfg, n),
      configMaps := w.configMaps - ConfigMapKeys(cfg, n),
      clusters := Released(w.clusters, n.cluster))
  }

  /** `v` clears to the same objects as `w`. */
  predicate Toward(cfg: Config, n: Names, w: World, v: World) {
    && v.secrets - SecretKeys(cfg, n) == w.secrets - SecretKeys(cfg, n)
    && v.configMaps - ConfigMapKeys(cfg, n) == w.configMaps - ConfigMapKeys(cfg, n)
    && Released(v.clusters, n.cluster) == Released(w.clusters, n.cluster)
    && v.appsEnabled == w.appsEnabled
    && SameResources(WithoutReferences(cfg, n, w), WithoutReferences(cfg, n, v))
  }

  predicate SameResources(w: World, v: World) {
    v.helmReleases == w.helmReleases && v.apps == w.apps
  }

  lemma TowardMeans(cfg: Config, n: Names, w: World, v: World)
    ensures Toward(cfg, n, w, v) <==> SameObjects(Cleared(cfg, n, w), Cleared(cfg, n, v))
  {
    WithoutIsStrip(w, n.bot, n.botConfigMap.name);
    WithoutIsStrip(v, n.bot, n.botConfigMap.name);
    WithoutIsStrip(WithoutBot(cfg, n, w), n.agent, n.configMap.name);
    WithoutIsStrip(WithoutBot(cfg, n, v), n.agent, n.configMap.name);
  }

  lemma SameResourcesStrip(w: World, v: World, resource: Key, name: string)
    requires SameResources(w, v)
    ensures SameResources(WithoutReference(w, resource, name), WithoutReference(v, resource, name))
  {
  }

  lemma SameResourcesStripAll(cfg: Config, n: Names, w: World, v: World)
    requires SameResources(w, v)
    ensures SameResources(WithoutReferences(cfg, n, w), WithoutReferences(cfg, n, v))
  {
    SameResourcesStrip(w, v, n.bot, n.botConfigMap.name);
    SameResourcesStrip(WithoutBot(cfg, n, w), WithoutBot(cfg, n, v), n.agent, n.configMap.name);
  }

  lemma SameObjectsToward(cfg: Config, n: Names, w: World, v: World)
    requires SameObjects(w, v)
    ensures Toward(cfg, n, w, v)
  {
    SameResourcesStripAll(cfg, n, w, v);
  }

  lemma TowardTransitive(cfg: Config, n: Names, u: World, v: World, w: World)
    requires Toward(cfg, n, u, v) && Toward(cfg, n, v, w)
    ensures Toward(cfg, n, u, w)
  {
  }

  lemma SubtractTwice<K, V>(m: map<K, V>, k: K, drop: set<K>)
    requires k in drop
    ensures (m - {k}) - drop == m - drop
  {
  }

  lemma DeleteSecretToward(cfg: Config, n: Names, w: World, k: Key)
    requires k in SecretKeys(cfg, n)
    ensures var r := DeleteSecret(w, k);
            && Toward(cfg, n, w, r.w) && r.w.clusters == w.clusters && SameResources(w, r.w)
            && r.w.configMaps == w.configMaps && (r.Ok? ==> r.w.secrets == w.secrets - {k})
  {
    SubtractTwice(w.secrets, k, SecretKeys(cfg, n));
    SameResourcesStripAll(cfg, n, w, DeleteSecret(w, k).w);
  }

  lemma DeleteConfigMapToward(cfg: Config, n: Names, w: World, k: Key)
    requires k in ConfigMapKeys(cfg, n)
    ensures var r := DeleteConfigMap(w, k);
            && Toward(cfg, n, w, r.w) && r.w.clusters == w.clusters && SameResources(w, r.w)
            && r.w.secrets == w.secrets && (r.Ok? ==> r.w.configMaps == w.configMaps - {k})
  {
    SubtractTwice(w.configMaps, k, ConfigMapKeys(cfg, n));
    SameResourcesStripAll(cfg, n, w, DeleteConfigMap(w, k).w);
  }

  lemma WithoutOneToward(cfg: Config, n: Names, w: World, resource: Key, name: string)
    requires (resource == n.agent && name == n.configMap.name)
          || (cfg.botEnabled && resource == n.bot && name == n.botConfigMap.name)
    ensures SameResources(WithoutReferences(cfg, n, w), WithoutReferences(cfg, n, WithoutReference(w, resource, name)))
  {
    var a, x, b, y := n.agent, n.configMap.name, n.bot, n.botConfigMap.name;
    WithoutTwice(w, b, y);
    WithoutTwice(w, a, x);
    WithoutTwice(WithoutReference(w, b, y), a, x);
    WithoutCommutes(w, a, x, b, y);
  }

  lemma DeleteReferenceObjects(w: World, resource: Key, name: string)
    ensures var r := DeleteReference(w, resource, name);
            && SameObjects(if r.Ok? then WithoutReference(w, resource, name) else w, r.w)
            && OnlyReferences(w, r.w)
  {
    DeleteReferenceEffect(w, resource, name);
    WithoutIsStrip(w, resource, name);
  }

  lemma ResourcesToward(cfg: Config, n: Names, w: World, v: World)
    requires v.clusters == w.clusters && v.appsEnabled == w.appsEnabled && v.secrets == w.secrets
    requires v.configMaps == w.configMaps && SameResources(WithoutReferences(cfg, n, w), WithoutReferences(cfg, n, v))
    ensures Toward(cfg, n, w, v)
  {
  }

  lemma DeleteReferenceToward(cfg: Config, n: Names, w: World, resource: Key, name: string)
    requires (resource == n.agent && name == n.configMap.name)
          || (cfg.botEnabled && resource == n.bot && name == n.botConfigMap.name)
    ensures var r := DeleteReference(w, resource, name);
            && Toward(cfg, n, w, r.w)
            && (r.Ok? ==> SameResources(r.w, WithoutReference(w, resource, name)))
            && r.w.secrets == w.secrets && r.w.configMaps == w.configMaps && r.w.clusters == w.clusters
  {
    var r := DeleteReference(w, resource, name);
    DeleteReferenceObjects(w, resource, name);
    if r.Ok? {
      WithoutOneToward(cfg, n, w, resource, name);
      SameResourcesStripAll(cfg, n, WithoutReference(w, resource, name), r.w);
    } else {
      SameResourcesStripAll(cfg, n, w, r.w);
    }
    ResourcesToward(cfg, n, w, r.w);
  }

  lemma RemoveFinalizerToward(cfg: Config, n: Names, w: World)
    requires n.cluster in w.clusters
    ensures var r := RemoveFinalizer(w, n.cluster, w.clusters[n.cluster]);
            && Toward(cfg, n, w, r.w)
            && (r.Ok? ==> Released(r.w.clusters, n.cluster) == r.w.clusters == Released(w.clusters, n.cluster))
            && (r.Fail? ==> r.w.clusters == w.clusters)
            && r.w.secrets == w.secrets && r.w.configMaps == w.configMaps && SameResources(w, r.w) && SameTokens(w, r.w)
            && r.w.appsEnabled == w.appsEnabled
  {
    var c := w.clusters[n.cluster];
    var r := RemoveFinalizer(w, n.cluster, c);
    DiscardMember(c.finalizers, {FINALIZER}, FINALIZER);
    SameResourcesStripAll(cfg, n, w, r.w);
    if r.Ok? {
      assert r.w.clusters == Released(w.clusters, n.cluster);
      assert FINALIZER !in Discard(c.finalizers, {FINALIZER});
    }
  }

  // --- A whole deregistration ----------------------------------------------------------------------------

  lemma DeleteTokenToward(cfg: Config, n: Names, w: World)
    ensures var r := DeleteToken(w, n.register);
            SameObjects(w, r.w) && Toward(cfg, n, w, r.w)
  {
    DeleteTokenFrame(w, n.register);
    SameObjectsToward(cfg, n, w, DeleteToken(w, n.register).w);
  }

  lemma RevokeToward(cfg: Config, n: Names, w: World)
    ensures var r := Revoke(w, n);
            && Toward(cfg, n, w, r.w) && r.w.clusters == w.clusters && SameResources(w, r.w)
            && (r.Ok? ==> r.w.secrets == w.secrets - {n.secret} && r.w.configMaps == w.configMaps - {n.configMap})
  {
    DeleteTokenToward(cfg, n, w);
    var r1 := DeleteToken(w, n.register);
    if r1.Ok? {
      DeleteSecretToward(cfg, n, r1.w, n.secret);
      var r2 := DeleteSecret(r1.w, n.secret);
      TowardTransitive(cfg, n, w, r1.w, r2.w);
      if r2.Ok? {
        DeleteConfigMapToward(cfg, n, r2.w, n.configMap);
        TowardTransitive(cfg, n, w, r2.w, DeleteConfigMap(r2.w, n.configMap).w);
      }
    }
  }

  lemma DeleteBotToward(cfg: Config, n: Names, w: World)
    ensures var r := DeleteBot(cfg, w, n);
            && Toward(cfg, n, w, r.w) && r.w.clusters == w.clusters
            && (r.Ok? ==> SameResources(WithoutBot(cfg, n, w), r.w)
                          && r.w.secrets == (if cfg.botEnabled then w.secrets - {n.kubeconfig} else w.secrets)
                          && r.w.configMaps == (if cfg.botEnabled then w.configMaps - {n.botConfigMap} else w.configMaps))
  {
    if cfg.botEnabled {
      DeleteReferenceToward(cfg, n, w, n.bot, n.botConfigMap.name);
      var r1 := DeleteReference(w, n.bot, n.botConfigMap.name);
      if r1.Ok? {
        DeleteConfigMapToward(cfg, n, r1.w, n.botConfigMap);
        var r2 := DeleteConfigMap(r1.w, n.botConfigMap);
        TowardTransitive(cfg, n, w, r1.w, r2.w);
        if r2.Ok? {
          DeleteSecretToward(cfg, n, r2.w, n.kubeconfig);
          TowardTransitive(cfg, n, w, r2.w, DeleteSecret(r2.w, n.kubeconfig).w);
        }
      }
    }
  }

  lemma ReleaseToward(cfg: Config, n: Names, w: World)
    requires n.cluster in w.clusters
    ensures var r := Release(w, n, w.clusters[n.cluster]);
            && Toward(cfg, n, w, r.w) && r.w.secrets == w.secrets && r.w.configMaps == w.configMaps
            && (r.Ok? ==> SameResources(WithoutReference(w, n.agent, n.configMap.name), r.w)
                          && r.w.clusters == Released(w.clusters, n.cluster))
            && (r.Fail? ==> r.w.clusters == w.clusters)
  {
    DeleteReferenceToward(cfg, n, w, n.agent, n.configMap.name);
    var r1 := DeleteReference(w, n.agent, n.configMap.name);
    if r1.Ok? {
      RemoveFinalizerToward(cfg, n, r1.w);
      TowardTransitive(cfg, n, w, r1.w, RemoveFinalizer(r1.w, n.cluster, w.clusters[n.cluster]).w);
    }
  }

  lemma SubtractUnion<K, V>(m: map<K, V>, a: K, b: K)
    ensures (m - {a}) - {b} == m - {a, b}
  {
  }

  /** The three parts compose to the cleared state. */
  lemma PartsClear(cfg: Config, n: Names, w: World, v1: World, v2: World, v3: World)
    requires v1.secrets == w.secrets - {n.secret} && v1.configMaps == w.configMaps - {n.configMap}
    requires SameResources(w, v1) && SameResources(WithoutBot(cfg, n, v1), v2)
    requires v2.secrets == (if cfg.botEnabled then v1.secrets - {n.kubeconfig} else v1.secrets)
    requires v2.configMaps == (if cfg.botEnabled then v1.configMaps - {n.botConfigMap} else v1.configMaps)
    requires SameResources(WithoutReference(v2, n.agent, n.configMap.name), v3)
    requires v3.secrets == v2.secrets && v3.configMaps == v2.configMaps
    ensures v3.secrets == w.secrets - SecretKeys(cfg, n) && v3.configMaps == w.configMaps - ConfigMapKeys(cfg, n)
    ensures SameResources(WithoutReferences(cfg, n, w), v3)
  {
    SubtractUnion(w.secrets, n.secret, n.kubeconfig);
    SubtractUnion(w.configMaps, n.configMap, n.botConfigMap);
    SameResourcesStrip(w, v1, n.bot, n.botConfigMap.name);
    SameResourcesStrip(WithoutBot(cfg, n, w), v2, n.agent, n.configMap.name);
  }

  /** Every prefix of a deregistration is on the way to the cleared state. */
  lemma DeregisterToward(cfg: Config, n: Names, w: World)
    requires n.cluster in w.clusters
    ensures var r := Deregister(cfg, w, n, w.clusters[n.cluster]);
            Toward(cfg, n, w, r.w) && (r.Fail? ==> r.w.clusters == w.clusters)
  {
    RevokeToward(cfg, n, w);
    var r1 := Revoke(w, n);
    if r1.Ok? {
      DeleteBotToward(cfg, n, r1.w);
      var r2 := DeleteBot(cfg, r1.w, n);
      TowardTransitive(cfg, n, w, r1.w, r2.w);
      if r2.Ok? {
        ReleaseToward(cfg, n, r2.w);
        TowardTransitive(cfg, n, w, r2.w, Release(r2.w, n, w.clusters[n.cluster]).w);
      }
    }
  }

  /** A complete one arrives there. */
  lemma DeregisterClears(cfg: Config, n: Names, w: World)
    requires n.cluster in w.clusters && Deregister(cfg, w, n, w.clusters[n.cluster]).Ok?
    ensures SameObjects(Cleared(cfg, n, w), Deregister(cfg, w, n, w.clusters[n.cluster]).w)
  {
    var v1 := Revoke(w, n).w;
    var v2 := DeleteBot(cfg, v1, n).w;
    var v3 := Release(v2, n, w.clusters[n.cluster]).w;
    RevokeToward(cfg, n, w);
    DeleteBotToward(cfg, n, v1);
    ReleaseToward(cfg, n, v2);
    PartsClear(cfg, n, w, v1, v2, v3);
    ClearedBy(cfg, n, w, v3);
  }

  lemma ClearedBy(cfg: Config, n: Names, w: World, v: World)
    requires v.secrets == w.secrets - SecretKeys(cfg, n) && v.configMaps == w.configMaps - ConfigMapKeys(cfg, n)
    requires SameResources(WithoutReferences(cfg, n, w), v)
    requires v.clusters == Released(w.clusters, n.cluster) && v.appsEnabled == w.appsEnabled
    ensures SameObjects(Cleared(cfg, n, w), v)
  {
    WithoutIsStrip(w, n.bot, n.botConfigMap.name);
    WithoutIsStrip(WithoutBot(cfg, n, w), n.agent, n.configMap.name);
  }

  // --- Completion ------------------------------------------------------------------------------------------

  const DEREGISTER_CALLS := 16

  lemma DeregisterCompletes(cfg: Config, w: World, n: Names, c: Cluster)
    requires |w.script| >= DEREGISTER_CALLS
    ensures Deregister(cfg, w, n, c).Ok?
  {
    assert Completes(w, DeleteToken(w, n.register), 2);
    var w1 := DeleteToken(w, n.register).w;
    assert Completes(w1, DeleteSecret(w1, n.secret), 1);
    var r1 := Revoke(w, n);
    assert Completes(w, r1, 4);
    ReferenceCompletes(r1.w, n.bot, n.botConfigMap.name);
    var r2 := DeleteBot(cfg, r1.w, n);
    assert Completes(r1.w, r2, 6);
    ReferenceCompletes(r2.w, n.agent, n.configMap.name);
    FinalizerCompletes(DeleteReference(r2.w, n.agent, n.configMap.name).w, n.cluster, c);
  }

  // --- Tokens ------------------------------------------------------------------------------------------------

  lemma DeleteReferenceTokens(w: World, resource: Key, name: string)
    ensures SameTokens(w, DeleteReference(w, resource, name).w)
  {
    DeleteReferenceEffect(w, resource, name);
    WithoutIsStrip(w, resource, name);
  }

  lemma TokensAfterRelease(cfg: Config, n: Names, w: World, c: Cluster)
    ensures SameTokens(w, Release(w, n, c).w)
  {
    DeleteReferenceTokens(w, n.agent, n.configMap.name);
  }

  lemma TokensAfterDeleteBot(cfg: Config, n: Names, w: World)
    ensures SameTokens(w, DeleteBot(cfg, w, n).w)
  {
    DeleteReferenceTokens(w, n.bot, n.botConfigMap.name);
  }

  /** A deregistration deletes one token of the cluster, or none if it stops before that. */
  lemma TokensAfterDeregister(cfg: Config, n: Names, w: World, c: Cluster)
    ensures var r := Deregister(cfg, w, n, c);
            && (r.w.tokens == w.tokens || r.w.tokens == DeleteOneLabelled(w.tokens, n.register))
            && (r.Ok? ==> r.w.tokens == DeleteOneLabelled(w.tokens, n.register))
  {
    DeleteTokenFrame(w, n.register);
    var r1 := Revoke(w, n);
    if r1.Ok? {
      TokensAfterDeleteBot(cfg, n, r1.w);
      var r2 := DeleteBot(cfg, r1.w, n);
      if r2.Ok? {
        TokensAfterRelease(cfg, n, r2.w, c);
      }
    }
  }

  lemma StrippedReference(w: World, resource: Key, name: string)
    ensures var v := WithoutReference(w, resource, name);
            && (resource in v.helmReleases ==> HelmReference(name) !in Items(GetValuesFrom(v.helmReleases[resource])))
            && (resource in v.apps && resource !in v.helmReleases ==>
                  AppReference(name, resource.ns) !in Items(v.apps[resource].extraConfigs))
  {
    if resource in w.helmReleases {
      DiscardMember(Items(GetValuesFrom(w.helmReleases[resource])), {HelmReference(name)}, HelmReference(name));
    } else if resource in w.apps {
      var ref := AppReference(name, resource.ns);
      DiscardMember(Items(w.apps[resource].extraConfigs), {ref}, ref);
    }
  }

  /** What the end state means: the operator's objects and references are gone, and so is its finalizer. */
  lemma ClearedMeans(cfg: Config, n: Names, w: World)
    ensures var v := Cleared(cfg, n, w);
            && n.secret !in v.secrets && n.configMap !in v.configMaps
            && (cfg.botEnabled ==> n.kubeconfig !in v.secrets && n.botConfigMap !in v.configMaps)
            && !Finalized(v, n.cluster)
            && (n.agent in v.helmReleases ==>
                  HelmReference(n.configMap.name) !in Items(GetValuesFrom(v.helmReleases[n.agent])))
            && (n.agent in v.apps && n.agent !in v.helmReleases ==>
                  AppReference(n.configMap.name, n.agent.ns) !in Items(v.apps[n.agent].extraConfigs))
  {
    StrippedReference(WithoutBot(cfg, n, w), n.agent, n.configMap.name);
    if n.cluster in w.clusters {
      DiscardMember(w.clusters[n.cluster].finalizers, {FINALIZER}, FINALIZER);
    }
  }

  // --- Tokens left behind ----------------------------------------------------------------------------------

  /** Deregistration leaves no token of the cluster if and only if there was at most one. */
  lemma TokensLeft(cfg: Config, n: Names, w: World, c: Cluster)
    requires UniqueNames(w.tokens) && Deregister(cfg, w, n, c).Ok?
    ensures Labelled(Deregister(cfg, w, n, c).w.tokens, n.register) == [] <==> |Labelled(w.tokens, n.register)| <= 1
  {
    TokensAfterDeregister(cfg, n, w, c);
    DeleteOneAccounting(w.tokens, n.register);
  }
}
