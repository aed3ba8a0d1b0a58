/** The goal of the operator in the terms of its users: names, labels, keys and values are spelled out, and none of
    the operator's own functions is used to say them. */
module Goal {
  import opened Prelude
  import opened Roles
  import opened Versions
  import opened Keys
  import opened Values
  import opened Yaml
  import opened Documents
  import opened RoundTrip
  import opened Layouts
  import opened Tokens
  import opened References
  import opened Environment
  import opened Machine
  import opened Effects
  import opened Steps
  import opened Injection
  import opened Registration
  import opened Convergence
  import opened Removal
  import opened Ownership

  // --- Names -------------------------------------------------------------------------------------------------

  /** The name under which Teleport knows the cluster. */
  function TeleportName(cfg: Config, k: Key): string {
    if k.name == cfg.managementClusterName then k.name else cfg.managementClusterName + "-" + k.name
  }

  function NodeSecret(k: Key): Key {
    Key(k.ns, k.name + "-teleport-join-token")
  }

  function Agent(cfg: Config, k: Key): Key {
    Key(k.ns, k.name + "-" + cfg.appName)
  }

  function AgentConfig(cfg: Config, k: Key): Key {
    Key(k.ns, k.name + "-" + cfg.appName + "-config")
  }

  function BotConfig(k: Key): Key {
    Key("giantswarm", "teleport-tbot-" + k.name + "-config")
  }

  function BotKubeconfig(k: Key): Key {
    Key("giantswarm", "teleport-" + k.name + "-kubeconfig")
  }

  const BOT := Key("giantswarm", "teleport-tbot")

  // --- Tokens ------------------------------------------------------------------------------------------------

  /** The store holds a token of that name for the cluster, not expired, with exactly these roles. */
  predicate Granted(w: World, name: string, teleportName: string, roles: multiset<string>, now: int) {
    exists t :: t in w.tokens && t.name == name
                && "cluster" in t.labels && t.labels["cluster"] == teleportName
                && t.expiry.Some? && t.expiry.value > now
                && multiset(LowerAll(t.roles)) == roles
  }

  function AgentRoles(appsEnabled: bool): multiset<string> {
    if appsEnabled then multiset{"kube", "app"} else multiset{"kube"}
  }

  function AgentRolesText(appsEnabled: bool): string {
    if appsEnabled then "kube,app" else "kube"
  }

  predicate NodeTokenStored(cfg: Config, k: Key, w: World, now: int) {
    && NodeSecret(k) in w.secrets && "joinToken" in w.secrets[NodeSecret(k)]
    && Granted(w, w.secrets[NodeSecret(k)]["joinToken"], TeleportName(cfg, k), multiset{"node"}, now)
  }

  // --- The chart version -----------------------------------------------------------------------------------------

  /** The version a HelmRelease is at: the one installed last if it is recorded, else the one asked for. */
  predicate HelmAt(hr: HelmRelease, version: string) {
    && (hr.history != [] && hr.history[0] != "" ==> version == hr.history[0])
    && (hr.history == [] || hr.history[0] == "" ==>
          (hr.spec.Some? ==> version == hr.spec.value.chartVersion) && (hr.spec.None? ==> version == ""))
  }

  /** The version at which a resource is; "" without a resource. */
  predicate At(w: World, resource: Key, version: string) {
    && (resource in w.helmReleases ==> HelmAt(w.helmReleases[resource], version))
    && (resource !in w.helmReleases && resource in w.apps ==> version == w.apps[resource].version)
    && (resource !in w.helmReleases && resource !in w.apps ==> version == "")
  }

  lemma AgentVersionAt(w: World, resource: Key, version: string)
    ensures At(w, resource, version) <==> version == AgentVersion(w, resource)
  {
  }

  /** What the operator finds out about the chart, on the fields of the resource. */
  lemma ChartVersionExactly(w: World, resource: Key, version: string)
    requires GetTeleportKubeAgentVersion(w, resource).Ok?
    ensures GetTeleportKubeAgentVersion(w, resource).value == version <==> At(w, resource, version)
  {
    VersionEffect(w, resource);
    AgentVersionAt(w, resource, version);
  }

  /** The chart reads nested values only. */
  predicate ReadsNested(cfg: Config, version: string) {
    cfg.semver(Bare(version)).Some? && SinceNested(cfg.semver(Bare(version)).value)
  }

  /** The configured Teleport version is no downgrade for a chart that reads nested values. */
  predicate NoDowngrade(cfg: Config) {
    cfg.semver(Bare(cfg.teleportVersion)).Some? && SinceBundled(cfg.semver(Bare(cfg.teleportVersion)).value)
  }

  // --- The values document -----------------------------------------------------------------------------------------

  /** The values of one block. */
  predicate BlockSays(cfg: Config, k: Key, w: World, fields: map<string, string>, appsEnabled: bool, override: bool,
                      now: int)
  {
    && fields.Keys == {"roles", "authToken", "proxyAddr", "kubeClusterName"}
                      + (if override then {"teleportVersionOverride"} else {})
    && fields["roles"] == AgentRolesText(appsEnabled)
    && fields["proxyAddr"] == cfg.proxyAddr
    && fields["kubeClusterName"] == TeleportName(cfg, k)
    && (override ==> fields["teleportVersionOverride"] == cfg.teleportVersion)
    && Granted(w, fields["authToken"], TeleportName(cfg, k), AgentRoles(appsEnabled), now)
  }

  /** The scalars of a document, as text. */
  function Scalars(doc: Document): map<string, string> {
    map key | key in doc && doc[key].Scalar? :: doc[key].text
  }

  /** The nested block is always there; the flat one exactly when the chart is one that reads it. */
  predicate DocumentSays(cfg: Config, k: Key, w: World, doc: Document, appsEnabled: bool, version: string, now: int) {
    && "teleport-kube-agent" in doc && doc["teleport-kube-agent"].Block?
    && BlockSays(cfg, k, w, doc["teleport-kube-agent"].fields, appsEnabled,
                 cfg.teleportVersion != "" && NoDowngrade(cfg), now)
    && doc.Keys == Scalars(doc).Keys + {"teleport-kube-agent"}
    && (if ReadsNested(cfg, version) then Scalars(doc) == map[]
        else BlockSays(cfg, k, w, Scalars(doc), appsEnabled, cfg.teleportVersion != "", now))
  }

  ghost predicate ValuesStored(cfg: Config, k: Key, w: World, appsEnabled: bool, now: int) {
    var key := AgentConfig(cfg, k);
    && key in w.configMaps && "values" in w.configMaps[key]
    && var doc := ParseDocument(w.configMaps[key]["values"]);
       && doc.Some?
       && forall version :: At(w, Agent(cfg, k), version) ==> DocumentSays(cfg, k, w, doc.value, appsEnabled, version, now)
  }

  // --- References ------------------------------------------------------------------------------------------------

  /** An entry of a HelmRelease's list that stands for the values of that ConfigMap. */
  predicate HelmEntry(e: ValuesRef, ns: string, configMap: Key) {
    e.ValuesRef? && e.kind == "ConfigMap" && Key(ns, e.name) == configMap && e.valuesKey == "values"
  }

  /** An entry of an App's list. */
  predicate AppEntry(e: ExtraConfig, configMap: Key) {
    e.kind == "configMap" && Key(e.ns, e.name) == configMap && e.priority == 25
  }

  predicate HelmRefers(w: World, resource: Key, configMap: Key) {
    && resource in w.helmReleases && w.helmReleases[resource].spec.Some?
    && exists e :: e in Items(w.helmReleases[resource].spec.value.valuesFrom) && HelmEntry(e, resource.ns, configMap)
  }

  predicate AppRefers(w: World, resource: Key, configMap: Key) {
    resource in w.apps && exists e :: e in Items(w.apps[resource].extraConfigs) && AppEntry(e, configMap)
  }

  /** The ConfigMap exists, and the resource, if there is one, takes its values from it. */
  predicate Delivered(w: World, resource: Key, configMap: Key) {
    && configMap in w.configMaps
    && (resource in w.helmReleases ==> HelmRefers(w, resource, configMap))
    && (resource !in w.helmReleases && resource in w.apps ==> AppRefers(w, resource, configMap))
  }

  // --- The goal for a live cluster ---------------------------------------------------------------------------------

  predicate Guards(w: World, k: Key) {
    k in w.clusters && "teleport.finalizer.giantswarm.io" in w.clusters[k].finalizers
  }

  ghost predicate Reached(cfg: Config, k: Key, w: World, appsEnabled: bool, now: int) {
    && Guards(w, k)
    && NodeTokenStored(cfg, k, w, now)
    && ValuesStored(cfg, k, w, appsEnabled, now)
    && Delivered(w, Agent(cfg, k), AgentConfig(cfg, k))
    && (cfg.botEnabled && BotKubeconfig(k) !in w.secrets ==> Delivered(w, BOT, BotConfig(k)))
  }

  lemma NamesSpelledOut(cfg: Config, k: Key)
    ensures var n := NamesOf(cfg, k);
            && n.cluster == k && n.register == TeleportName(cfg, k) && n.secret == NodeSecret(k)
            && n.configMap == AgentConfig(cfg, k) && n.agent == Agent(cfg, k)
            && n.botConfigMap == BotConfig(k) && n.kubeconfig == BotKubeconfig(k) && n.bot == BOT
  {
  }

  lemma ValidIsGranted(w: World, name: string, teleportName: string, roles: seq<string>, now: int)
    requires teleportName != ""
    ensures ValidAt(w.tokens, teleportName, name, roles, now) <==>
              Granted(w, name, teleportName, multiset(roles), now)
  {
    if ValidAt(w.tokens, teleportName, name, roles, now) {
      var t :| t in w.tokens && Matches(t, teleportName, name) && t.expiry.Some? && t.expiry.value > now
               && multiset(LowerAll(t.roles)) == multiset(roles);
      assert LABEL_CLUSTER == "cluster" && "cluster" in t.labels;
    }
    if Granted(w, name, teleportName, multiset(roles), now) {
      var t :| t in w.tokens && t.name == name
               && "cluster" in t.labels && t.labels["cluster"] == teleportName
               && t.expiry.Some? && t.expiry.value > now
               && multiset(LowerAll(t.roles)) == multiset(roles);
      assert LABEL_CLUSTER == "cluster" && Matches(t, teleportName, name);
    }
  }

  lemma RolesSpelledOut(appsEnabled: bool)
    ensures multiset(RolesFor(appsEnabled)) == AgentRoles(appsEnabled)
    ensures RolesToString(RolesFor(appsEnabled)) == AgentRolesText(appsEnabled)
  {
    var roles := RolesFor(appsEnabled);
    if appsEnabled {
      assert roles == ["kube", "app"];
      assert roles[1..] == ["app"] && Join(["app"], ',') == "app";
      assert "kube" + [','] + "app" == "kube,app";
    } else {
      assert roles == ["kube"];
    }
  }

  lemma ReferencesSpelledOut(w: World, resource: Key, configMap: Key)
    requires resource.ns == configMap.ns
    ensures InHelm(w, resource, configMap.name) <==> HelmRefers(w, resource, configMap)
    ensures InApp(w, resource, configMap.name) <==> AppRefers(w, resource, configMap)
  {
    if resource in w.helmReleases && w.helmReleases[resource].spec.Some? {
      var list := Items(w.helmReleases[resource].spec.value.valuesFrom);
      assert forall e :: e in list && HelmEntry(e, resource.ns, configMap) ==> e == HelmReference(configMap.name);
      assert HelmEntry(HelmReference(configMap.name), resource.ns, configMap);
    }
    if resource in w.apps {
      var list := Items(w.apps[resource].extraConfigs);
      assert forall e :: e in list && AppEntry(e, configMap) ==> e == AppReference(configMap.name, resource.ns);
      assert AppEntry(AppReference(configMap.name, resource.ns), configMap);
    }
  }

  lemma BlockOfFields(cfg: Config, k: Key, w: World, f: Fields, appsEnabled: bool, now: int)
    requires f.roles == AgentRolesText(appsEnabled) && f.proxy == cfg.proxyAddr && f.name == TeleportName(cfg, k)
    requires f.override != "" ==> f.override == cfg.teleportVersion
    requires Granted(w, f.token, TeleportName(cfg, k), AgentRoles(appsEnabled), now)
    ensures BlockSays(cfg, k, w, FieldMap(f), appsEnabled, f.override != "", now)
  {
    FieldMapLookups(f);
  }

  lemma ScalarsOfDual(flat: map<string, string>, nested: map<string, string>)
    requires AGENT_KEY !in flat
    ensures var doc := AsDocument(flat)[AGENT_KEY := Block(nested)];
            Scalars(doc) == flat && doc.Keys == flat.Keys + {AGENT_KEY}
  {
    var doc := AsDocument(flat)[AGENT_KEY := Block(nested)];
    assert forall key :: key in Scalars(doc) <==> key in flat;
  }

  lemma ScalarsOfNested(nested: map<string, string>)
    ensures var doc: Document := map[][AGENT_KEY := Block(nested)];
            Scalars(doc) == map[] && doc.Keys == {AGENT_KEY}
  {
  }

  /** A rendered document says what it should. */
  lemma MeaningSays(cfg: Config, k: Key, w: World, token: string, appsEnabled: bool, version: string, now: int)
    requires Granted(w, token, TeleportName(cfg, k), AgentRoles(appsEnabled), now)
    ensures DocumentSays(cfg, k, w, Meaning(cfg, TeleportName(cfg, k), token, RolesFor(appsEnabled), version),
                         appsEnabled, version, now)
  {
    var name, roles := TeleportName(cfg, k), RolesFor(appsEnabled);
    var flat, nested := FlatFields(cfg, name, token, roles), NestedFields(cfg, name, token, roles);
    RolesSpelledOut(appsEnabled);
    OverrideExactly(cfg.semver, cfg.teleportVersion);
    NestedExactly(cfg.semver, version);
    BlockOfFields(cfg, k, w, flat, appsEnabled, now);
    BlockOfFields(cfg, k, w, nested, appsEnabled, now);
    FieldMapLookups(flat);
    ScalarsOfDual(FieldMap(flat), FieldMap(nested));
    ScalarsOfNested(FieldMap(nested));
  }

  lemma ValuesSpelledOut(cfg: Config, k: Key, w: World, appsEnabled: bool, now: int)
    requires Steps.WellFormed(cfg, NamesOf(cfg, k))
    requires var n := NamesOf(cfg, k);
             ValuesCurrent(cfg, n, w.configMaps, w.tokens, RolesFor(appsEnabled), AgentVersion(w, n.agent), now)
    ensures ValuesStored(cfg, k, w, appsEnabled, now)
  {
    var n, roles := NamesOf(cfg, k), RolesFor(appsEnabled);
    var data := w.configMaps[n.configMap];
    var token, tka := GetTokenFromConfigMap(data).value, AgentVersion(w, n.agent);
    NamesSpelledOut(cfg, k);
    RolesForAreTokenRoles(appsEnabled);
    ParsedStringsSafe(data);
    SafeJoin(roles);
    ParseOfRender(cfg, n.register, token, roles, tka);
    ValidIsGranted(w, token, n.register, roles, now);
    RolesSpelledOut(appsEnabled);
    MeaningSays(cfg, k, w, token, appsEnabled, tka, now);
    forall version | At(w, Agent(cfg, k), version)
      ensures DocumentSays(cfg, k, w, ParseDocument(data["values"]).value, appsEnabled, version, now)
    {
      AgentVersionAt(w, Agent(cfg, k), version);
    }
  }

  lemma DeliverySpelledOut(w: World, resource: Key, configMap: Key)
    requires resource.ns == configMap.ns && Referenced(w, resource, configMap.name) && configMap in w.configMaps
    ensures Delivered(w, resource, configMap)
  {
    ReferencesSpelledOut(w, resource, configMap);
  }

  /** The registered state is the goal. */
  lemma RegisteredIsReached(cfg: Config, k: Key, w: World, appsEnabled: bool, now: int)
    requires Steps.WellFormed(cfg, NamesOf(cfg, k))
    requires Registered(cfg, NamesOf(cfg, k), w, RolesFor(appsEnabled), now)
    ensures Reached(cfg, k, w, appsEnabled, now)
  {
    var n := NamesOf(cfg, k);
    NamesSpelledOut(cfg, k);
    ValuesSpelledOut(cfg, k, w, appsEnabled, now);
    ValidIsGranted(w, w.secrets[n.secret][JOIN_TOKEN], n.register, [ROLE_NODE], now);
    DeliverySpelledOut(w, n.agent, n.configMap);
    if cfg.botEnabled && n.kubeconfig !in w.secrets {
      DeliverySpelledOut(w, n.bot, n.botConfigMap);
    }
  }

  lemma BlockIsRecoverable(cfg: Config, k: Key, w: World, data: Data, doc: Document, appsEnabled: bool, version: string,
                           now: int)
    requires VALUES in data && ParseDocument(data[VALUES]) == Some(doc)
    requires DocumentSays(cfg, k, w, doc, appsEnabled, version, now) && TeleportName(cfg, k) != ""
    ensures RecoverableData(NamesOf(cfg, k), data)
  {
    var fields := doc["teleport-kube-agent"].fields;
    NamesSpelledOut(cfg, k);
    assert doc == doc[AGENT_KEY := Block(fields)];
    NestedBlockIsRead(data, doc, fields);
    assert fields["authToken"] == AsDocument(fields)["authToken"].text;
  }

  /** The goal is not reached unless what is stored could be recovered from. */
  lemma ReachedIsRecoverable(cfg: Config, k: Key, w: World, appsEnabled: bool, now: int)
    requires Steps.WellFormed(cfg, NamesOf(cfg, k)) && Reached(cfg, k, w, appsEnabled, now)
    ensures Recoverable(NamesOf(cfg, k), w)
  {
    var n := NamesOf(cfg, k);
    NamesSpelledOut(cfg, k);
    var data := w.configMaps[n.configMap];
    var version := AgentVersion(w, n.agent);
    AgentVersionAt(w, Agent(cfg, k), version);
    BlockIsRecoverable(cfg, k, w, data, ParseDocument(data["values"]).value, appsEnabled, version, now);
  }

  // --- Single steps ------------------------------------------------------------------------------------------------

  /** After a successful EnsureReference the preferred resource takes its values from the ConfigMap. */
  lemma EnsureReferenceRefers(w: World, resource: Key, configMap: Key)
    requires resource.ns == configMap.ns && EnsureReference(w, resource, configMap.name).Ok?
    ensures var v := EnsureReference(w, resource, configMap.name).w;
            && (resource in v.helmReleases ==> HelmRefers(v, resource, configMap))
            && (resource !in v.helmReleases && resource in v.apps ==> AppRefers(v, resource, configMap))
  {
    var v := EnsureReference(w, resource, configMap.name).w;
    EnsureReferenceKeeps(w, resource, configMap.name, resource, configMap.name);
    ReferencesSpelledOut(v, resource, configMap);
  }

  /** After a successful DeleteReference it does not. */
  lemma DeleteReferenceForgets(w: World, resource: Key, configMap: Key)
    requires resource.ns == configMap.ns && DeleteReference(w, resource, configMap.name).Ok?
    ensures var v := DeleteReference(w, resource, configMap.name).w;
            && !HelmRefers(v, resource, configMap)
            && (resource !in v.helmReleases ==> !AppRefers(v, resource, configMap))
  {
    var v := DeleteReference(w, resource, configMap.name).w;
    DeleteReferenceObjects(w, resource, configMap.name);
    WithoutIsStrip(w, resource, configMap.name);
    StrippedReference(w, resource, configMap.name);
    ReferencesSpelledOut(v, resource, configMap);
  }

  /** The document for the bot: one output, from the name that Teleport knows to that of the cluster. */
  lemma BotDocument(cfg: Config, k: Key)
    requires IsKey(TeleportName(cfg, k)) && Safe(k.name)
    ensures var data := BotValues(NamesOf(cfg, k));
            && data.Keys == {"values"}
            && ParseDocument(data["values"]) == Some(map["outputs" := Block(map[TeleportName(cfg, k) := k.name])])
  {
    var name := TeleportName(cfg, k);
    NamesSpelledOut(cfg, k);
    var header, entry := Line(false, "outputs", None), Line(true, name, Some(k.name));
    BotText(name, k.name);
    assert Yaml.WellFormed(header) && Yaml.WellFormed(entry);
    ParseOfText([header, entry]);
    var root: Document := map["outputs" := Null];
    assert [header, entry][1..] == [entry] && [entry][1..] == [];
    assert Build([header, entry], map[], None) == Build([entry], root, Some("outputs"));
    assert map[][name := k.name] == map[name := k.name];
    assert Build([entry], root, Some("outputs")) == Some(root["outputs" := Block(map[name := k.name])]);
    assert root["outputs" := Block(map[name := k.name])] == map["outputs" := Block(map[name := k.name])];
    assert BotValues(NamesOf(cfg, k))["values"] == Text([header, entry]);
  }

  lemma BotText(name: string, clusterName: string)
    ensures "outputs:\n  " + name + ": \"" + clusterName + "\"\n"
         == Text([Line(false, "outputs", None), Line(true, name, Some(clusterName))])
  {
    var header, entry := Line(false, "outputs", None), Line(true, name, Some(clusterName));
    assert [header, entry][1..] == [entry] && Text([entry]) == LineText(entry) + "\n" + "";
    assert LineText(header) == "outputs:";
    assert LineText(entry) == "  " + name + ":" + (" \"" + clusterName + "\"");
  }

  /** A bot ConfigMap that was not there before the step and is after it holds that document. */
  lemma BotConfigCreated(cfg: Config, w: World, k: Key)
    requires BotConfig(k) !in w.configMaps && BotConfig(k) in BotStep(cfg, w, NamesOf(cfg, k)).w.configMaps
    ensures BotStep(cfg, w, NamesOf(cfg, k)).w.configMaps[BotConfig(k)] == BotValues(NamesOf(cfg, k))
  {
    var n, w1 := NamesOf(cfg, k), Call(w).w;
    NamesSpelledOut(cfg, k);
    CallOnlyLater(w);
    EnsureTbotEffect(w1, n);
    var e := EnsureTbotConfigMap(w1, n);
    EnsureReferenceKeeps(e.w, n.bot, n.botConfigMap.name, n.bot, n.botConfigMap.name);
  }

  // --- The goal for a deleted cluster ------------------------------------------------------------------------------

  /** Nothing the operator writes for the cluster is there: no Secret, no ConfigMap and no reference of either kind. */
  predicate NothingLeft(cfg: Config, k: Key, w: World) {
    && NodeSecret(k) !in w.secrets && AgentConfig(cfg, k) !in w.configMaps
    && !HelmRefers(w, Agent(cfg, k), AgentConfig(cfg, k)) && !AppRefers(w, Agent(cfg, k), AgentConfig(cfg, k))
    && (cfg.botEnabled ==>
          BotConfig(k) !in w.configMaps && !HelmRefers(w, BOT, BotConfig(k)) && !AppRefers(w, BOT, BotConfig(k)))
  }

  /** ... nor its finalizer, nor the kubeconfig that the bot wrote. */
  predicate Gone(cfg: Config, k: Key, w: World) {
    && !Guards(w, k) && NothingLeft(cfg, k, w)
    && (cfg.botEnabled ==> BotKubeconfig(k) !in w.secrets)
  }

  lemma NothingLeftExactly(cfg: Config, k: Key, w: World)
    ensures NothingLeft(cfg, k, w) <==> !Owned(cfg, NamesOf(cfg, k), w)
    ensures Guards(w, k) <==> Finalized(w, k)
  {
    NamesSpelledOut(cfg, k);
    ReferencesSpelledOut(w, Agent(cfg, k), AgentConfig(cfg, k));
    ReferencesSpelledOut(w, BOT, BotConfig(k));
  }
}
