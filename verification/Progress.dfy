/** A live reconcile that is not interrupted succeeds, and one that finds its goal reached changes nothing. */
module Progress {
  import opened Prelude
  import opened Roles
  import opened Keys
  import opened Documents
  import opened Tokens
  import opened References
  import opened Environment
  import opened Machine
  import opened Effects
  import opened Steps
  import opened Injection
  import opened Registration

  // --- Quiescence ------------------------------------------------------------------------------------

  lemma OnlyLaterTransitive(u: World, v: World, w: World)
    requires OnlyLater(u, v) && OnlyLater(v, w)
    ensures OnlyLater(u, w)
  {
  }

  lemma SecretStepQuiet(cfg: Config, w: World, n: Names)
    requires FreshNames(cfg, w) && SecretValid(n, w.secrets, w.tokens, Deadline(w))
    ensures OnlyLater(w, SecretStep(cfg, w, n).w)
  {
    var w1 := Call(w).w;
    CallOnlyLater(w);
    if Call(w).Ok? {
      var token := w.secrets[n.secret][JOIN_TOKEN];
      RolesForAreTokenRoles(false);
      CheckTokenExactly(w1, n.register, token, [ROLE_NODE]);
      CallOnlyLater(w1);
      ValidEarlier(w.tokens, n.register, token, [ROLE_NODE], Call(w1).w.now, Deadline(w));
      OnlyLaterTransitive(w, w1, Call(w1).w);
    }
  }

  lemma RotateQuiet(cfg: Config, w: World, n: Names, data: Data, token: string, roles: seq<string>, tka: string)
    requires UniqueNames(w.tokens) && TokenRoles(roles) && ValidAt(w.tokens, n.register, token, roles, Deadline(w))
    requires VALUES in data && data[VALUES] == RenderConfigMapValues(cfg, n.register, token, roles, tka)
    ensures OnlyLater(w, Rotate(cfg, w, n, data, token, roles, tka).w)
  {
    CheckTokenExactly(w, n.register, token, roles);
    CallOnlyLater(w);
    ValidEarlier(w.tokens, n.register, token, roles, Call(w).w.now, Deadline(w));
  }

  lemma StoredQuiet(cfg: Config, w: World, n: Names, data: Data, roles: seq<string>, tka: string)
    requires UniqueNames(w.tokens) && TokenRoles(roles) && DataCurrent(cfg, n, data, w.tokens, roles, tka, Deadline(w))
    ensures OnlyLater(w, Rotate(cfg, w, n, data, GetTokenFromConfigMap(data).value, roles, tka).w)
  {
    RotateQuiet(cfg, w, n, data, GetTokenFromConfigMap(data).value, roles, tka);
  }

  lemma ConfigMapStepQuiet(cfg: Config, w: World, n: Names, roles: seq<string>, tka: string)
    requires FreshNames(cfg, w) && TokenRoles(roles)
    requires ValuesCurrent(cfg, n, w.configMaps, w.tokens, roles, tka, Deadline(w))
    ensures OnlyLater(w, ConfigMapStep(cfg, w, n, roles, tka).w)
  {
    var w1 := Call(w).w;
    CallOnlyLater(w);
    if Call(w).Ok? {
      var data := w.configMaps[n.configMap];
      StoredQuiet(cfg, w1, n, data, roles, tka);
      OnlyLaterTransitive(w, w1, Rotate(cfg, w1, n, data, GetTokenFromConfigMap(data).value, roles, tka).w);
    }
  }

  lemma InjectQuiet(cfg: Config, w: World, n: Names)
    requires Referenced(w, n.agent, n.configMap.name) && BotReady(cfg, n, w)
    ensures OnlyLater(w, Inject(cfg, w, n).w)
  {
    var r := EnsureReference(w, n.agent, n.configMap.name);
    EnsureReferenceKeeps(w, n.agent, n.configMap.name, n.agent, n.configMap.name);
    assert OnlyLater(w, r.w);
    if r.Ok? {
      BotStepKeeps(cfg, r.w, n);
      OnlyLaterTransitive(w, r.w, BotStep(cfg, r.w, n).w);
    }
  }

  lemma PrepareQuiet(cfg: Config, w: World, n: Names, c: Cluster)
    requires FreshNames(cfg, w) && Finalized(w, n.cluster) && w.clusters[n.cluster] == c
    requires SecretValid(n, w.secrets, w.tokens, Deadline(w))
    ensures var r := Prepare(cfg, w, n, c);
            OnlyLater(w, r.w) && (r.Ok? ==> r.value == AgentVersion(w, n.agent))
  {
    AddFinalizerEffect(w, n.cluster, c);
    SecretStepQuiet(cfg, w, n);
    var r := SecretStep(cfg, w, n);
    if r.Ok? {
      VersionEffect(r.w, n.agent);
      OnlyLaterTransitive(w, r.w, GetTeleportKubeAgentVersion(r.w, n.agent).w);
    }
  }

  lemma LaterReferences(cfg: Config, n: Names, w: World, v: World)
    requires OnlyLater(w, v)
    ensures AgentVersion(v, n.agent) == AgentVersion(w, n.agent)
    ensures Referenced(w, n.agent, n.configMap.name) ==> Referenced(v, n.agent, n.configMap.name)
    ensures BotReady(cfg, n, w) ==> BotReady(cfg, n, v)
  {
  }

  lemma PublishQuiet(cfg: Config, w: World, n: Names, roles: seq<string>, tka: string)
    requires FreshNames(cfg, w) && TokenRoles(roles)
    requires ValuesCurrent(cfg, n, w.configMaps, w.tokens, roles, tka, Deadline(w))
    requires Referenced(w, n.agent, n.configMap.name) && BotReady(cfg, n, w)
    ensures OnlyLater(w, Publish(cfg, w, n, roles, tka).w)
  {
    ConfigMapStepQuiet(cfg, w, n, roles, tka);
    var r := ConfigMapStep(cfg, w, n, roles, tka);
    if r.Ok? {
      LaterReferences(cfg, n, w, r.w);
      InjectQuiet(cfg, r.w, n);
      OnlyLaterTransitive(w, r.w, Inject(cfg, r.w, n).w);
    }
  }

  /** In a registered state whose tokens outlive the run, a live reconcile makes no write and draws no token,
      whether or not it is interrupted. */
  lemma RegisterQuiet(cfg: Config, w: World, n: Names, c: Cluster, roles: seq<string>)
    requires WellFormed(cfg, n) && FreshNames(cfg, w) && TokenRoles(roles)
    requires Registered(cfg, n, w, roles, Deadline(w)) && w.clusters[n.cluster] == c
    ensures OnlyLater(w, Register(cfg, w, n, c, roles).w)
  {
    PrepareQuiet(cfg, w, n, c);
    var r := Prepare(cfg, w, n, c);
    if r.Ok? {
      LaterReferences(cfg, n, w, r.w);
      PublishQuiet(cfg, r.w, n, roles, r.value);
      OnlyLaterTransitive(w, r.w, Publish(cfg, r.w, n, roles, r.value).w);
    }
  }

  // --- Completion --------------------------------------------------------------------------------------

  /** The step completes with at most `calls` client calls. */
  predicate Completes<T>(w: World, r: Run<T>, calls: nat) {
    r.Ok? && |r.w.script| >= |w.script| - calls
  }

  lemma FinalizerCompletes(w: World, k: Key, c: Cluster)
    requires |w.script| >= 1
    ensures Completes(w, AddFinalizer(w, k, c), 1) && Completes(w, RemoveFinalizer(w, k, c), 1)
  {
  }

  lemma GenerateCompletes(cfg: Config, w: World, registerName: string, roles: seq<string>)
    requires |w.script| >= 1
    ensures Completes(w, GenerateToken(cfg, w, registerName, roles), 1)
    ensures GenerateToken(cfg, w, registerName, roles).w.configMaps == w.configMaps
    ensures GenerateToken(cfg, w, registerName, roles).w.secrets == w.secrets
  {
  }

  lemma CheckCompletes(w: World, registerName: string, token: string, roles: seq<string>)
    requires |w.script| >= 1 && IsRoleList(roles)
    ensures Completes(w, CheckToken(w, registerName, token, RolesToString(roles)), 1)
    ensures SameObjects(w, CheckToken(w, registerName, token, RolesToString(roles)).w)
  {
    ParseOfRolesToString(roles);
  }

  lemma SecretStepCompletes(cfg: Config, w: World, n: Names)
    requires |w.script| >= 4 && (n.secret in w.secrets ==> JOIN_TOKEN in w.secrets[n.secret])
    ensures Completes(w, SecretStep(cfg, w, n), 4)
  {
    var w1 := Call(w).w;
    if n.secret in w.secrets {
      var token := w.secrets[n.secret][JOIN_TOKEN];
      RolesForAreTokenRoles(false);
      CheckCompletes(w1, n.register, token, [ROLE_NODE]);
      GenerateCompletes(cfg, CheckToken(w1, n.register, token, ROLE_NODE).w, n.register, [ROLE_NODE]);
    } else {
      GenerateCompletes(cfg, w1, n.register, [ROLE_NODE]);
    }
  }

  lemma VersionCompletes(w: World, k: Key)
    requires |w.script| >= 2
    ensures Completes(w, GetTeleportKubeAgentVersion(w, k), 2)
  {
  }

  lemma WriteValuesCompletes(cfg: Config, w: World, n: Names, data: Data, token: string, roles: seq<string>, tka: string)
    requires |w.script| >= 1 && n.configMap in w.configMaps && RegisterNameFromConfigMap(data).Some?
    ensures Completes(w, WriteValues(cfg, w, n, data, token, roles, tka), 1)
  {
  }

  lemma RotateCompletes(cfg: Config, w: World, n: Names, data: Data, token: string, roles: seq<string>, tka: string)
    requires |w.script| >= 3 && n.configMap in w.configMaps && RegisterNameFromConfigMap(data).Some? && IsRoleList(roles)
    ensures Completes(w, Rotate(cfg, w, n, data, token, roles, tka), 3)
  {
    CheckCompletes(w, n.register, token, roles);
    var c := CheckToken(w, n.register, token, RolesToString(roles));
    if c.value {
      WriteValuesCompletes(cfg, c.w, n, data, token, roles, tka);
    } else {
      GenerateCompletes(cfg, c.w, n.register, roles);
      var t := GenerateToken(cfg, c.w, n.register, roles);
      WriteValuesCompletes(cfg, t.w, n, data, t.value, roles, tka);
    }
  }

  lemma CreateValuesCompletes(cfg: Config, w: World, n: Names, token: string, roles: seq<string>, tka: string)
    requires |w.script| >= 2 && n.configMap !in w.configMaps
    ensures Completes(w, CreateValues(cfg, w, n, token, roles, tka), 2)
  {
  }

  lemma ConfigMapStepCompletes(cfg: Config, w: World, n: Names, roles: seq<string>, tka: string)
    requires |w.script| >= 4 && IsRoleList(roles)
    requires n.configMap in w.configMaps ==>
               GetTokenFromConfigMap(w.configMaps[n.configMap]).Some?
               && RegisterNameFromConfigMap(w.configMaps[n.configMap]).Some?
    ensures Completes(w, ConfigMapStep(cfg, w, n, roles, tka), 4)
  {
    var w1 := Call(w).w;
    if n.configMap in w.configMaps {
      var data := w.configMaps[n.configMap];
      RotateCompletes(cfg, w1, n, data, GetTokenFromConfigMap(data).value, roles, tka);
    } else {
      GenerateCompletes(cfg, w1, n.register, roles);
      var t := GenerateToken(cfg, w1, n.register, roles);
      CreateValuesCompletes(cfg, t.w, n, t.value, roles, tka);
    }
  }

  lemma ManagerCompletes(w: World, k: Key, name: string)
    requires |w.script| >= 2
    ensures Completes(w, NewTeleportAppConfigManager(w, k, name), 2)
  {
  }

  lemma ConfigCompletes(w: World, m: Manager)
    requires |w.script| >= 2
    requires m.HelmReleaseManager? ==> m.resource in w.helmReleases
    requires m.AppManager? ==> m.resource in w.apps
    ensures Completes(w, EnsureConfig(w, m), 2) && Completes(w, DeleteConfig(w, m), 2)
  {
  }

  lemma ReferenceCompletes(w: World, k: Key, name: string)
    requires |w.script| >= 4
    ensures Completes(w, EnsureReference(w, k, name), 4) && Completes(w, DeleteReference(w, k, name), 4)
  {
    ManagerCompletes(w, k, name);
    ManagerKind(w, k, name);
    var m := NewTeleportAppConfigManager(w, k, name);
    ConfigCompletes(m.w, m.value);
  }

  lemma EnsureTbotCompletes(w: World, n: Names)
    requires |w.script| >= 2
    ensures Completes(w, EnsureTbotConfigMap(w, n), 2)
  {
  }

  lemma BotStepCompletes(cfg: Config, w: World, n: Names)
    requires |w.script| >= 7
    ensures Completes(w, BotStep(cfg, w, n), 7)
  {
    var w1 := Call(w).w;
    EnsureTbotCompletes(w1, n);
    ReferenceCompletes(EnsureTbotConfigMap(w1, n).w, n.bot, n.botConfigMap.name);
  }

  /** Client calls of a live reconcile past the gate, at most. */
  const REGISTER_CALLS := 22

  lemma PrepareCompletes(cfg: Config, w: World, n: Names, c: Cluster)
    requires |w.script| >= 7 && (n.secret in w.secrets ==> JOIN_TOKEN in w.secrets[n.secret])
    ensures Completes(w, Prepare(cfg, w, n, c), 7)
  {
    FinalizerCompletes(w, n.cluster, c);
    var r1 := AddFinalizer(w, n.cluster, c);
    assert r1.w.secrets == w.secrets;
    SecretStepCompletes(cfg, r1.w, n);
    VersionCompletes(SecretStep(cfg, r1.w, n).w, n.agent);
  }

  lemma PublishCompletes(cfg: Config, w: World, n: Names, roles: seq<string>, tka: string)
    requires |w.script| >= 15 && IsRoleList(roles)
    requires n.configMap in w.configMaps ==>
               GetTokenFromConfigMap(w.configMaps[n.configMap]).Some?
               && RegisterNameFromConfigMap(w.configMaps[n.configMap]).Some?
    ensures Completes(w, Publish(cfg, w, n, roles, tka), 15)
  {
    ConfigMapStepCompletes(cfg, w, n, roles, tka);
    var r := ConfigMapStep(cfg, w, n, roles, tka);
    ReferenceCompletes(r.w, n.agent, n.configMap.name);
    BotStepCompletes(cfg, EnsureReference(r.w, n.agent, n.configMap.name).w, n);
  }
}
