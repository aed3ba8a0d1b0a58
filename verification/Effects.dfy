/** What a reconcile of one cluster can touch, wherever it stops. */
module Effects {
  import opened Prelude
  import opened Roles
  import opened Keys
  import opened Documents
  import opened Tokens
  import opened References
  import opened Environment
  import opened Machine

  // --- Time --------------------------------------------------------------------------------------

  function Total(script: seq<nat>): nat {
    if script == [] then 0 else script[0] + Total(script[1..])
  }

  /** The instant at which the script runs out; every call leaves it where it is. */
  function Deadline(w: World): int {
    w.now + Total(w.script)
  }

  // --- Token names -------------------------------------------------------------------------------

  /** The generator never repeats a name, and its names need no escaping. */
  ghost predicate GoodGenerator(cfg: Config) {
    && (forall i: nat, j: nat :: i != j ==> cfg.generate(i) != cfg.generate(j))
    && (forall i: nat :: Values.Safe(cfg.generate(i)))
  }

  /** The generator will not return this name from its `issued`-th call on. */
  ghost predicate NotFuture(cfg: Config, issued: nat, name: string) {
    forall i: nat :: i >= issued ==> cfg.generate(i) != name
  }

  ghost predicate FreshList(cfg: Config, issued: nat, tokens: seq<Token>) {
    UniqueNames(tokens) && forall i :: 0 <= i < |tokens| ==> NotFuture(cfg, issued, tokens[i].name)
  }

  ghost predicate FreshNames(cfg: Config, w: World) {
    FreshList(cfg, w.issued, w.tokens)
  }

  // --- Footprint ---------------------------------------------------------------------------------

  /** The Secrets a reconcile of this cluster may write or delete. */
  function SecretKeys(cfg: Config, n: Names): set<Key> {
    if cfg.botEnabled then {n.secret, n.kubeconfig} else {n.secret}
  }

  /** ... and the ConfigMaps. */
  function ConfigMapKeys(cfg: Config, n: Names): set<Key> {
    if cfg.botEnabled then {n.configMap, n.botConfigMap} else {n.configMap}
  }

  /** The names this cluster's reconcile refers to in a resource. */
  function OwnNames(cfg: Config, n: Names, resource: Key): set<string> {
    (if resource == n.agent then {n.configMap.name} else {})
    + (if cfg.botEnabled && resource == n.bot then {n.botConfigMap.name} else {})
  }

  function HelmReferences(cfg: Config, n: Names, resource: Key): set<ValuesRef> {
    set name | name in OwnNames(cfg, n, resource) :: HelmReference(name)
  }

  function AppReferences(cfg: Config, n: Names, resource: Key): set<ExtraConfig> {
    set name | name in OwnNames(cfg, n, resource) :: AppReference(name, resource.ns)
  }

  /** Same release, except for this cluster's references. */
  predicate HelmAlike(cfg: Config, n: Names, resource: Key, a: HelmRelease, b: HelmRelease) {
    && HelmChartVersion(a) == HelmChartVersion(b)
    && Discard(Items(GetValuesFrom(a)), HelmReferences(cfg, n, resource))
       == Discard(Items(GetValuesFrom(b)), HelmReferences(cfg, n, resource))
  }

  predicate AppAlike(cfg: Config, n: Names, resource: Key, a: App, b: App) {
    && a.version == b.version
    && Discard(Items(a.extraConfigs), AppReferences(cfg, n, resource))
       == Discard(Items(b.extraConfigs), AppReferences(cfg, n, resource))
  }

  predicate HelmFootprint(cfg: Config, n: Names, a: map<Key, HelmRelease>, b: map<Key, HelmRelease>) {
    && a.Keys == b.Keys
    && forall k :: k in a ==> HelmAlike(cfg, n, k, a[k], b[k])
  }

  predicate AppFootprint(cfg: Config, n: Names, a: map<Key, App>, b: map<Key, App>) {
    && a.Keys == b.Keys
    && forall k :: k in a ==> AppAlike(cfg, n, k, a[k], b[k])
  }

  /** From `w` to `v` nothing changed but what belongs to the cluster named by `n`. */
  predicate Footprint(cfg: Config, n: Names, w: World, v: World) {
    && v.clusters - {n.cluster} == w.clusters - {n.cluster}
    && v.appsEnabled == w.appsEnabled
    && v.secrets - SecretKeys(cfg, n) == w.secrets - SecretKeys(cfg, n)
    && v.configMaps - ConfigMapKeys(cfg, n) == w.configMaps - ConfigMapKeys(cfg, n)
    && HelmFootprint(cfg, n, w.helmReleases, v.helmReleases)
    && AppFootprint(cfg, n, w.apps, v.apps)
    && NotLabelled(v.tokens, n.register) == NotLabelled(w.tokens, n.register)
    && w.issued <= v.issued
    && w.now <= v.now
    && Deadline(v) == Deadline(w)
  }

  lemma FootprintTransitive(cfg: Config, n: Names, u: World, v: World, w: World)
    requires Footprint(cfg, n, u, v) && Footprint(cfg, n, v, w)
    ensures Footprint(cfg, n, u, w)
  {
  }

  /** The step keeps token names fresh and stays within the footprint. */
  ghost predicate Contained(cfg: Config, n: Names, w: World, v: World) {
    Footprint(cfg, n, w, v) && (FreshNames(cfg, w) ==> FreshNames(cfg, v))
  }

  lemma ContainedTransitive(cfg: Config, n: Names, u: World, v: World, w: World)
    requires Contained(cfg, n, u, v) && Contained(cfg, n, v, w)
    ensures Contained(cfg, n, u, w)
  {
    FootprintTransitive(cfg, n, u, v, w);
  }

  // --- Single calls --------------------------------------------------------------------------------

  lemma CallContained(cfg: Config, n: Names, w: World)
    ensures Contained(cfg, n, w, Call(w).w)
  {
  }

  lemma UpsertFresh(cfg: Config, n: Names, issued: nat, tokens: seq<Token>, t: Token)
    requires GoodGenerator(cfg) && t.name == cfg.generate(issued) && ClusterLabel(t) == n.register
    requires FreshList(cfg, issued, tokens)
    ensures Upsert(tokens, t) == tokens + [t]
    ensures FreshList(cfg, issued + 1, tokens) && FreshList(cfg, issued + 1, tokens + [t])
    ensures NotLabelled(tokens + [t], n.register) == NotLabelled(tokens, n.register)
  {
    assert !HasName(tokens, t.name);
    UpsertOfNewName(tokens, t);
    NotLabelledConcat(tokens, [t], n.register);
    assert NotLabelled([t], n.register) == [];
    forall i | 0 <= i < |tokens + [t]| ensures NotFuture(cfg, issued + 1, (tokens + [t])[i].name) {
      if i < |tokens| {
        assert NotFuture(cfg, issued, tokens[i].name);
      }
    }
  }

  /** Equal Kubernetes objects: a step that only takes time or changes tokens. */
  predicate SameObjects(w: World, v: World) {
    && v.clusters == w.clusters && v.appsEnabled == w.appsEnabled && v.secrets == w.secrets
    && v.configMaps == w.configMaps && v.helmReleases == w.helmReleases && v.apps == w.apps
  }

  predicate Later(w: World, v: World) {
    w.issued <= v.issued && w.now <= v.now && Deadline(v) == Deadline(w)
  }

  lemma SameObjectsContained(cfg: Config, n: Names, w: World, v: World)
    requires SameObjects(w, v) && Later(w, v)
    requires NotLabelled(v.tokens, n.register) == NotLabelled(w.tokens, n.register)
    requires FreshNames(cfg, w) ==> FreshNames(cfg, v)
    ensures Contained(cfg, n, w, v)
  {
  }

  lemma GenerateFrame(cfg: Config, w: World, registerName: string, roles: seq<string>)
    ensures var r := GenerateToken(cfg, w, registerName, roles);
            && SameObjects(w, r.w) && Later(w, r.w) && r.w.issued == w.issued + 1 && r.w.writes == w.writes
            && (r.Fail? ==> r.w.tokens == w.tokens)
            && (r.Ok? ==>
                  r.value == cfg.generate(w.issued)
                  && r.w.tokens == Upsert(w.tokens, NewToken(r.value, registerName, roles, w.now)))
  {
  }

  /** A fresh name makes the upsert an append. */
  lemma GenerateTokens(cfg: Config, w: World, n: Names, roles: seq<string>)
    requires GoodGenerator(cfg) && FreshNames(cfg, w)
    ensures var r := GenerateToken(cfg, w, n.register, roles);
            && FreshNames(cfg, r.w)
            && (r.Ok? ==> r.w.tokens == w.tokens + [NewToken(r.value, n.register, roles, w.now)])
            && NotLabelled(r.w.tokens, n.register) == NotLabelled(w.tokens, n.register)
  {
    GenerateFrame(cfg, w, n.register, roles);
    UpsertFresh(cfg, n, w.issued, w.tokens, NewToken(cfg.generate(w.issued), n.register, roles, w.now));
  }

  lemma GenerateContained(cfg: Config, n: Names, w: World, roles: seq<string>)
    requires GoodGenerator(cfg) && FreshNames(cfg, w)
    ensures Contained(cfg, n, w, GenerateToken(cfg, w, n.register, roles).w)
  {
    GenerateFrame(cfg, w, n.register, roles);
    GenerateTokens(cfg, w, n, roles);
    SameObjectsContained(cfg, n, w, GenerateToken(cfg, w, n.register, roles).w);
  }

  predicate SameTokens(w: World, v: World) {
    v.tokens == w.tokens && v.issued == w.issued
  }

  /** A write to one of the cluster's own objects. */
  lemma OwnObjectsContained(cfg: Config, n: Names, w: World, v: World)
    requires SameTokens(w, v) && Later(w, v) && v.appsEnabled == w.appsEnabled
    requires v.clusters - {n.cluster} == w.clusters - {n.cluster}
    requires v.secrets - SecretKeys(cfg, n) == w.secrets - SecretKeys(cfg, n)
    requires v.configMaps - ConfigMapKeys(cfg, n) == w.configMaps - ConfigMapKeys(cfg, n)
    requires HelmFootprint(cfg, n, w.helmReleases, v.helmReleases) && AppFootprint(cfg, n, w.apps, v.apps)
    ensures Contained(cfg, n, w, v)
  {
  }

  lemma MapFrame<K, V>(m: map<K, V>, k: K, v: V, drop: set<K>)
    requires k in drop
    ensures m[k := v] - drop == m - drop
    ensures (m - {k}) - drop == m - drop
  {
  }

  /** Only the secrets changed, and at most at `k`. */
  predicate SecretFrame(w: World, v: World, k: Key, data: Data) {
    && SameTokens(w, v) && Later(w, v)
    && v.clusters == w.clusters && v.appsEnabled == w.appsEnabled && v.configMaps == w.configMaps
    && v.helmReleases == w.helmReleases && v.apps == w.apps
    && (v.secrets == w.secrets || v.secrets == w.secrets[k := data] || v.secrets == w.secrets - {k})
  }

  lemma SecretFrameContained(cfg: Config, n: Names, w: World, v: World, k: Key, data: Data)
    requires k in SecretKeys(cfg, n) && SecretFrame(w, v, k, data)
    ensures Contained(cfg, n, w, v)
  {
    MapFrame(w.secrets, k, data, SecretKeys(cfg, n));
    OwnObjectsContained(cfg, n, w, v);
  }

  lemma CreateSecretContained(cfg: Config, n: Names, w: World, k: Key, data: Data)
    requires k in SecretKeys(cfg, n)
    ensures Contained(cfg, n, w, CreateSecret(w, k, data).w)
  {
    assert SecretFrame(w, CreateSecret(w, k, data).w, k, data);
    SecretFrameContained(cfg, n, w, CreateSecret(w, k, data).w, k, data);
  }

  lemma UpdateSecretContained(cfg: Config, n: Names, w: World, k: Key, data: Data)
    requires k in SecretKeys(cfg, n)
    ensures Contained(cfg, n, w, UpdateSecret(w, k, data).w)
  {
    assert SecretFrame(w, UpdateSecret(w, k, data).w, k, data);
    SecretFrameContained(cfg, n, w, UpdateSecret(w, k, data).w, k, data);
  }

  lemma DeleteSecretContained(cfg: Config, n: Names, w: World, k: Key)
    requires k in SecretKeys(cfg, n)
    ensures Contained(cfg, n, w, DeleteSecret(w, k).w)
  {
    assert SecretFrame(w, DeleteSecret(w, k).w, k, map[]);
    SecretFrameContained(cfg, n, w, DeleteSecret(w, k).w, k, map[]);
  }

  /** Only the configMaps changed, and at most at `k`. */
  predicate ConfigMapFrame(w: World, v: World, k: Key, data: Data) {
    && SameTokens(w, v) && Later(w, v)
    && v.clusters == w.clusters && v.appsEnabled == w.appsEnabled && v.secrets == w.secrets
    && v.helmReleases == w.helmReleases && v.apps == w.apps
    && (v.configMaps == w.configMaps || v.configMaps == w.configMaps[k := data] || v.configMaps == w.configMaps - {k})
  }

  lemma ConfigMapFrameContained(cfg: Config, n: Names, w: World, v: World, k: Key, data: Data)
    requires k in ConfigMapKeys(cfg, n) && ConfigMapFrame(w, v, k, data)
    ensures Contained(cfg, n, w, v)
  {
    MapFrame(w.configMaps, k, data, ConfigMapKeys(cfg, n));
    OwnObjectsContained(cfg, n, w, v);
  }

  lemma CreateConfigMapContained(cfg: Config, n: Names, w: World, k: Key, data: Data)
    requires k in ConfigMapKeys(cfg, n)
    ensures Contained(cfg, n, w, CreateConfigMap(w, k, data).w)
  {
    assert ConfigMapFrame(w, CreateConfigMap(w, k, data).w, k, data);
    ConfigMapFrameContained(cfg, n, w, CreateConfigMap(w, k, data).w, k, data);
  }

  lemma UpdateConfigMapContained(cfg: Config, n: Names, w: World, k: Key, data: Data)
    requires k in ConfigMapKeys(cfg, n)
    ensures Contained(cfg, n, w, UpdateConfigMap(w, k, data).w)
  {
    assert ConfigMapFrame(w, UpdateConfigMap(w, k, data).w, k, data);
    ConfigMapFrameContained(cfg, n, w, UpdateConfigMap(w, k, data).w, k, data);
  }

  lemma DeleteConfigMapContained(cfg: Config, n: Names, w: World, k: Key)
    requires k in ConfigMapKeys(cfg, n)
    ensures Contained(cfg, n, w, DeleteConfigMap(w, k).w)
  {
    assert ConfigMapFrame(w, DeleteConfigMap(w, k).w, k, map[]);
    ConfigMapFrameContained(cfg, n, w, DeleteConfigMap(w, k).w, k, map[]);
  }

  lemma PatchContained(cfg: Config, n: Names, w: World, finalizers: seq<string>)
    ensures Contained(cfg, n, w, PatchFinalizers(w, n.cluster, finalizers).w)
  {
    var v := PatchFinalizers(w, n.cluster, finalizers).w;
    assert v.clusters - {n.cluster} == w.clusters - {n.cluster};
    OwnObjectsContained(cfg, n, w, v);
  }

  lemma DeleteTokenContained(cfg: Config, n: Names, w: World)
    requires FreshNames(cfg, w)
    ensures Contained(cfg, n, w, DeleteToken(w, n.register).w)
    ensures var r := DeleteToken(w, n.register);
            SameObjects(w, r.w) && r.w.writes == w.writes
            && r.w.tokens == (if r.Ok? then DeleteOneLabelled(w.tokens, n.register) else w.tokens)
  {
    DeleteOneAccounting(w.tokens, n.register);
    DeleteOneUnique(w.tokens, n.register);
    var rest := DeleteOneLabelled(w.tokens, n.register);
    forall i | 0 <= i < |rest| ensures NotFuture(cfg, w.issued, rest[i].name) {
      assert rest[i] in w.tokens;
    }
    DeleteTokenFrame(w, n.register);
    SameObjectsContained(cfg, n, w, DeleteToken(w, n.register).w);
  }

  lemma CallLater(w: World)
    ensures Later(w, Call(w).w)
  {
  }

  lemma DeleteTokenFrame(w: World, registerName: string)
    ensures var r := DeleteToken(w, registerName);
            && SameObjects(w, r.w) && Later(w, r.w) && r.w.issued == w.issued && r.w.writes == w.writes
            && r.w.tokens == (if r.Ok? then DeleteOneLabelled(w.tokens, registerName) else w.tokens)
  {
    var g := GetTokens(w);
    CallLater(w);
    if g.Ok? && FirstLabelled(w.tokens, registerName).Some? {
      CallLater(g.w);
      assert Later(g.w, DeleteToken(w, registerName).w);
    }
  }

  // --- References ----------------------------------------------------------------------------------

  lemma DiscardAppend<T>(refs: Slice<T>, ref: T, drop: set<T>)
    requires ref in drop
    ensures Discard(Items(AppendReference(refs, ref)), drop) == Discard(Items(refs), drop)
    ensures Discard(Items(RemoveReference(refs, ref)), drop) == Discard(Items(refs), drop)
  {
    DiscardConcat(Items(refs), [ref], drop);
    DiscardTwice(Items(refs), {ref}, drop);
    assert {ref} + drop == drop;
    assert Discard([ref], drop) == [];
  }

  /** `refs` differs from the references of `hr` only in those of this cluster. */
  predicate HelmOwnChange(cfg: Config, n: Names, k: Key, hr: HelmRelease, refs: Slice<ValuesRef>) {
    Discard(Items(refs), HelmReferences(cfg, n, k)) == Discard(Items(GetValuesFrom(hr)), HelmReferences(cfg, n, k))
  }

  predicate AppOwnChange(cfg: Config, n: Names, k: Key, app: App, refs: Slice<ExtraConfig>) {
    Discard(Items(refs), AppReferences(cfg, n, k)) == Discard(Items(app.extraConfigs), AppReferences(cfg, n, k))
  }

  lemma HelmChanges(cfg: Config, n: Names, k: Key, hr: HelmRelease, name: string)
    requires OwnReference(cfg, n, k, name)
    ensures HelmOwnChange(cfg, n, k, hr, AppendReference(GetValuesFrom(hr), HelmReference(name)))
    ensures HelmOwnChange(cfg, n, k, hr, RemoveReference(GetValuesFrom(hr), HelmReference(name)))
  {
    assert name in OwnNames(cfg, n, k);
    DiscardAppend(GetValuesFrom(hr), HelmReference(name), HelmReferences(cfg, n, k));
  }

  lemma AppChanges(cfg: Config, n: Names, k: Key, app: App, name: string)
    requires OwnReference(cfg, n, k, name)
    ensures AppOwnChange(cfg, n, k, app, AppendReference(app.extraConfigs, AppReference(name, k.ns)))
    ensures AppOwnChange(cfg, n, k, app, RemoveReference(app.extraConfigs, AppReference(name, k.ns)))
  {
    assert name in OwnNames(cfg, n, k);
    DiscardAppend(app.extraConfigs, AppReference(name, k.ns), AppReferences(cfg, n, k));
  }

  predicate HelmFrame(w: World, v: World, k: Key, hr: HelmRelease) {
    && SameTokens(w, v) && Later(w, v)
    && v.clusters == w.clusters && v.appsEnabled == w.appsEnabled && v.secrets == w.secrets
    && v.configMaps == w.configMaps && v.apps == w.apps
    && (v.helmReleases == w.helmReleases || v.helmReleases == w.helmReleases[k := hr])
  }

  predicate AppFrame(w: World, v: World, k: Key, app: App) {
    && SameTokens(w, v) && Later(w, v)
    && v.clusters == w.clusters && v.appsEnabled == w.appsEnabled && v.secrets == w.secrets
    && v.configMaps == w.configMaps && v.helmReleases == w.helmReleases
    && (v.apps == w.apps || v.apps == w.apps[k := app])
  }

  lemma UpdateHelmContained(cfg: Config, n: Names, w: World, k: Key, refs: Slice<ValuesRef>)
    requires k in w.helmReleases && HelmOwnChange(cfg, n, k, w.helmReleases[k], refs)
    ensures Contained(cfg, n, w, UpdateHelmRelease(w, k, SetValuesFrom(w.helmReleases[k], refs)).w)
  {
    var hr := SetValuesFrom(w.helmReleases[k], refs);
    var v := UpdateHelmRelease(w, k, hr).w;
    SetValuesFromKeepsVersion(w.helmReleases[k], refs);
    assert HelmFrame(w, v, k, hr);
    assert HelmFootprint(cfg, n, w.helmReleases, w.helmReleases[k := hr]);
    OwnObjectsContained(cfg, n, w, v);
  }

  lemma UpdateAppContained(cfg: Config, n: Names, w: World, k: Key, refs: Slice<ExtraConfig>)
    requires k in w.apps && AppOwnChange(cfg, n, k, w.apps[k], refs)
    ensures Contained(cfg, n, w, UpdateApp(w, k, w.apps[k].(extraConfigs := refs)).w)
  {
    var app := w.apps[k].(extraConfigs := refs);
    var v := UpdateApp(w, k, app).w;
    assert AppFrame(w, v, k, app);
    assert AppFootprint(cfg, n, w.apps, w.apps[k := app]);
    OwnObjectsContained(cfg, n, w, v);
  }

  predicate OwnManager(cfg: Config, n: Names, m: Manager) {
    m.NoOpManager? || OwnReference(cfg, n, m.resource, m.configMapName)
  }

  predicate OwnReference(cfg: Config, n: Names, resource: Key, configMapName: string) {
    (resource == n.agent && configMapName == n.configMap.name)
    || (cfg.botEnabled && resource == n.bot && configMapName == n.botConfigMap.name)
  }

  lemma HelmEnsureContained(cfg: Config, n: Names, w: World, resource: Key, name: string)
    requires OwnReference(cfg, n, resource, name)
    ensures Contained(cfg, n, w, EnsureConfig(w, HelmReleaseManager(resource, name)).w)
  {
    var w1 := Call(w).w;
    CallContained(cfg, n, w);
    if Call(w).Ok? && resource in w.helmReleases {
      var refs := AppendReference(GetValuesFrom(w.helmReleases[resource]), HelmReference(name));
      HelmChanges(cfg, n, resource, w.helmReleases[resource], name);
      UpdateHelmContained(cfg, n, w1, resource, refs);
      ContainedTransitive(cfg, n, w, w1, UpdateHelmRelease(w1, resource, SetValuesFrom(w.helmReleases[resource], refs)).w);
    }
  }

  lemma HelmDeleteContained(cfg: Config, n: Names, w: World, resource: Key, name: string)
    requires OwnReference(cfg, n, resource, name)
    ensures Contained(cfg, n, w, DeleteConfig(w, HelmReleaseManager(resource, name)).w)
  {
    var w1 := Call(w).w;
    CallContained(cfg, n, w);
    if Call(w).Ok? && resource in w.helmReleases {
      var refs := RemoveReference(GetValuesFrom(w.helmReleases[resource]), HelmReference(name));
      HelmChanges(cfg, n, resource, w.helmReleases[resource], name);
      UpdateHelmContained(cfg, n, w1, resource, refs);
      ContainedTransitive(cfg, n, w, w1, UpdateHelmRelease(w1, resource, SetValuesFrom(w.helmReleases[resource], refs)).w);
    }
  }

  lemma AppEnsureContained(cfg: Config, n: Names, w: World, resource: Key, name: string)
    requires OwnReference(cfg, n, resource, name)
    ensures Contained(cfg, n, w, EnsureConfig(w, AppManager(resource, name)).w)
  {
    var w1 := Call(w).w;
    CallContained(cfg, n, w);
    if Call(w).Ok? && resource in w.apps {
      var refs := AppendReference(w.apps[resource].extraConfigs, AppReference(name, resource.ns));
      AppChanges(cfg, n, resource, w.apps[resource], name);
      UpdateAppContained(cfg, n, w1, resource, refs);
      ContainedTransitive(cfg, n, w, w1, UpdateApp(w1, resource, w.apps[resource].(extraConfigs := refs)).w);
    }
  }

  lemma AppDeleteContained(cfg: Config, n: Names, w: World, resource: Key, name: string)
    requires OwnReference(cfg, n, resource, name)
    ensures Contained(cfg, n, w, DeleteConfig(w, AppManager(resource, name)).w)
  {
    var w1 := Call(w).w;
    CallContained(cfg, n, w);
    if Call(w).Ok? && resource in w.apps {
      var refs := RemoveReference(w.apps[resource].extraConfigs, AppReference(name, resource.ns));
      AppChanges(cfg, n, resource, w.apps[resource], name);
      UpdateAppContained(cfg, n, w1, resource, refs);
      ContainedTransitive(cfg, n, w, w1, UpdateApp(w1, resource, w.apps[resource].(extraConfigs := refs)).w);
    }
  }

  lemma ManagerContained(cfg: Config, n: Names, w: World, m: Manager)
    requires OwnManager(cfg, n, m)
    ensures Contained(cfg, n, w, EnsureConfig(w, m).w)
    ensures Contained(cfg, n, w, DeleteConfig(w, m).w)
  {
    match m {
      case NoOpManager =>
      case HelmReleaseManager(resource, name) =>
        HelmEnsureContained(cfg, n, w, resource, name);
        HelmDeleteContained(cfg, n, w, resource, name);
      case AppManager(resource, name) =>
        AppEnsureContained(cfg, n, w, resource, name);
        AppDeleteContained(cfg, n, w, resource, name);
    }
  }

  lemma NewManagerContained(cfg: Config, n: Names, w: World, resource: Key, name: string)
    requires OwnReference(cfg, n, resource, name)
    ensures var r := NewTeleportAppConfigManager(w, resource, name);
            Contained(cfg, n, w, r.w) && (r.Ok? ==> OwnManager(cfg, n, r.value))
  {
    var g := GetHelmRelease(w, resource);
    CallContained(cfg, n, w);
    if g.Ok? && g.value.None? {
      CallContained(cfg, n, g.w);
      ContainedTransitive(cfg, n, w, g.w, NewTeleportAppConfigManager(w, resource, name).w);
    }
  }

  lemma ReferenceContained(cfg: Config, n: Names, w: World, resource: Key, name: string)
    requires OwnReference(cfg, n, resource, name)
    ensures Contained(cfg, n, w, EnsureReference(w, resource, name).w)
    ensures Contained(cfg, n, w, DeleteReference(w, resource, name).w)
  {
    var r := NewTeleportAppConfigManager(w, resource, name);
    NewManagerContained(cfg, n, w, resource, name);
    if r.Ok? {
      ManagerContained(cfg, n, r.w, r.value);
      ContainedTransitive(cfg, n, w, r.w, EnsureConfig(r.w, r.value).w);
      ContainedTransitive(cfg, n, w, r.w, DeleteConfig(r.w, r.value).w);
    }
  }

  // --- The steps -----------------------------------------------------------------------------------

  lemma CheckContained(cfg: Config, n: Names, w: World, token: string, tokenType: string)
    ensures Contained(cfg, n, w, CheckToken(w, n.register, token, tokenType).w)
  {
    CallContained(cfg, n, w);
  }

  /** Generate a token, then store it with `write`. */
  lemma SecretStepContained(cfg: Config, w: World, n: Names)
    requires GoodGenerator(cfg) && FreshNames(cfg, w)
    ensures Contained(cfg, n, w, SecretStep(cfg, w, n).w)
  {
    var g := GetSecret(w, n.secret);
    var v := SecretStep(cfg, w, n).w;
    CallContained(cfg, n, w);
    if g.Ok? {
      if g.value.None? {
        NewSecretContained(cfg, g.w, n);
        ContainedTransitive(cfg, n, w, g.w, v);
      } else if JOIN_TOKEN in g.value.value {
        var c := CheckToken(g.w, n.register, g.value.value[JOIN_TOKEN], ROLE_NODE);
        CheckContained(cfg, n, g.w, g.value.value[JOIN_TOKEN], ROLE_NODE);
        ContainedTransitive(cfg, n, w, g.w, c.w);
        if c.Ok? && !c.value {
          NewSecretContained(cfg, c.w, n);
          ContainedTransitive(cfg, n, w, c.w, v);
        }
      }
    }
  }

  lemma NewSecretContained(cfg: Config, w: World, n: Names)
    requires GoodGenerator(cfg) && FreshNames(cfg, w)
    ensures var r := GenerateToken(cfg, w, n.register, [ROLE_NODE]);
            Contained(cfg, n, w, r.w) &&
            (r.Ok? ==> Contained(cfg, n, w, CreateSecret(r.w, n.secret, map[JOIN_TOKEN := r.value]).w)
                       && Contained(cfg, n, w, UpdateSecret(r.w, n.secret, map[JOIN_TOKEN := r.value]).w))
  {
    var r := GenerateToken(cfg, w, n.register, [ROLE_NODE]);
    GenerateContained(cfg, n, w, [ROLE_NODE]);
    if r.Ok? {
      var data := map[JOIN_TOKEN := r.value];
      CreateSecretContained(cfg, n, r.w, n.secret, data);
      UpdateSecretContained(cfg, n, r.w, n.secret, data);
      ContainedTransitive(cfg, n, w, r.w, CreateSecret(r.w, n.secret, data).w);
      ContainedTransitive(cfg, n, w, r.w, UpdateSecret(r.w, n.secret, data).w);
    }
  }

  lemma WriteValuesContained(cfg: Config, w: World, n: Names, data: Data, token: string, roles: seq<string>, tka: string)
    ensures Contained(cfg, n, w, WriteValues(cfg, w, n, data, token, roles, tka).w)
  {
    match UpdatedData(cfg, data, token, roles, tka) {
      case None =>
      case Some(updated) => UpdateConfigMapContained(cfg, n, w, n.configMap, updated);
    }
  }

  lemma CreateValuesContained(cfg: Config, w: World, n: Names, token: string, roles: seq<string>, tka: string)
    ensures Contained(cfg, n, w, CreateValues(cfg, w, n, token, roles, tka).w)
  {
    var g := GetConfigMap(w, n.configMap);
    CallContained(cfg, n, w);
    if g.Ok? && g.value.None? {
      var data := map[VALUES := RenderConfigMapValues(cfg, n.register, token, roles, tka)];
      CreateConfigMapContained(cfg, n, g.w, n.configMap, data);
      ContainedTransitive(cfg, n, w, g.w, CreateConfigMap(g.w, n.configMap, data).w);
    }
  }

  lemma ConfigMapStepContained(cfg: Config, w: World, n: Names, roles: seq<string>, tka: string)
    requires GoodGenerator(cfg) && FreshNames(cfg, w)
    ensures Contained(cfg, n, w, ConfigMapStep(cfg, w, n, roles, tka).w)
  {
    var g := GetConfigMap(w, n.configMap);
    var v := ConfigMapStep(cfg, w, n, roles, tka).w;
    CallContained(cfg, n, w);
    if g.Ok? {
      if g.value.None? {
        GenerateContained(cfg, n, g.w, roles);
        var t := GenerateToken(cfg, g.w, n.register, roles);
        ContainedTransitive(cfg, n, w, g.w, t.w);
        if t.Ok? {
          CreateValuesContained(cfg, t.w, n, t.value, roles, tka);
          ContainedTransitive(cfg, n, w, t.w, v);
        }
      } else if GetTokenFromConfigMap(g.value.value).Some? {
        RotateContained(cfg, g.w, n, g.value.value, roles, tka);
        ContainedTransitive(cfg, n, w, g.w, v);
      }
    }
  }

  lemma RotateContained(cfg: Config, w: World, n: Names, data: Data, roles: seq<string>, tka: string)
    requires GoodGenerator(cfg) && FreshNames(cfg, w) && GetTokenFromConfigMap(data).Some?
    ensures Contained(cfg, n, w, Rotate(cfg, w, n, data, GetTokenFromConfigMap(data).value, roles, tka).w)
  {
    var token := GetTokenFromConfigMap(data).value;
    var v := Rotate(cfg, w, n, data, token, roles, tka).w;
    var c := CheckToken(w, n.register, token, RolesToString(roles));
    CheckContained(cfg, n, w, token, RolesToString(roles));
    if c.Ok? {
      if c.value {
        WriteValuesContained(cfg, c.w, n, data, token, roles, tka);
        ContainedTransitive(cfg, n, w, c.w, v);
      } else {
        GenerateContained(cfg, n, c.w, roles);
        var t := GenerateToken(cfg, c.w, n.register, roles);
        ContainedTransitive(cfg, n, w, c.w, t.w);
        if t.Ok? {
          WriteValuesContained(cfg, t.w, n, data, t.value, roles, tka);
          ContainedTransitive(cfg, n, w, t.w, v);
        }
      }
    }
  }

  lemma AttachBotContained(cfg: Config, w: World, n: Names)
    requires cfg.botEnabled
    ensures Contained(cfg, n, w, AttachBot(w, n).w)
  {
    var e := EnsureTbotConfigMap(w, n);
    EnsureTbotContained(cfg, w, n);
    if e.Ok? {
      ReferenceContained(cfg, n, e.w, n.bot, n.botConfigMap.name);
      ContainedTransitive(cfg, n, w, e.w, AttachBot(w, n).w);
    }
  }

  lemma BotStepContained(cfg: Config, w: World, n: Names)
    ensures Contained(cfg, n, w, BotStep(cfg, w, n).w)
  {
    var w1 := Call(w).w;
    CallContained(cfg, n, w);
    if cfg.botEnabled && Call(w).Ok? && n.kubeconfig !in w.secrets {
      AttachBotContained(cfg, w1, n);
      ContainedTransitive(cfg, n, w, w1, AttachBot(w1, n).w);
    }
  }

  lemma EnsureTbotContained(cfg: Config, w: World, n: Names)
    requires cfg.botEnabled
    ensures Contained(cfg, n, w, EnsureTbotConfigMap(w, n).w)
  {
    var g := GetConfigMap(w, n.botConfigMap);
    CallContained(cfg, n, w);
    if g.Ok? && g.value.None? {
      CreateConfigMapContained(cfg, n, g.w, n.botConfigMap, BotValues(n));
      ContainedTransitive(cfg, n, w, g.w, EnsureTbotConfigMap(w, n).w);
    }
  }
}
