/** Time never goes back during a reconcile, whatever the world it starts from. */
module Clock {
  import opened Prelude
  import opened Roles
  import opened Keys
  import opened Documents
  import opened Environment
  import opened Machine
  import opened Effects
  import opened Steps
  import opened Injection
  import opened Registration

  lemma LaterTransitive(u: World, v: World, w: World)
    requires Later(u, v) && Later(v, w)
    ensures Later(u, w)
  {
  }

  // --- Steps -----------------------------------------------------------------------------------------------

  lemma FinalizerLater(w: World, k: Key, c: Cluster)
    ensures Later(w, AddFinalizer(w, k, c).w) && Later(w, RemoveFinalizer(w, k, c).w)
  {
    CallLater(w);
  }

  lemma NewSecretLater(cfg: Config, w: World, n: Names)
    ensures var t := GenerateToken(cfg, w, n.register, [ROLE_NODE]);
            && Later(w, t.w)
            && (t.Ok? ==> Later(w, CreateSecret(t.w, n.secret, map[JOIN_TOKEN := t.value]).w)
                          && Later(w, UpdateSecret(t.w, n.secret, map[JOIN_TOKEN := t.value]).w))
  {
    var t := GenerateToken(cfg, w, n.register, [ROLE_NODE]);
    GenerateFrame(cfg, w, n.register, [ROLE_NODE]);
    if t.Ok? {
      CallLater(t.w);
    }
  }

  lemma SecretStepLater(cfg: Config, w: World, n: Names)
    ensures Later(w, SecretStep(cfg, w, n).w)
  {
    var g := GetSecret(w, n.secret);
    CallLater(w);
    if g.Ok? && g.value.None? {
      NewSecretLater(cfg, g.w, n);
      LaterTransitive(w, g.w, SecretStep(cfg, w, n).w);
    } else if g.Ok? && JOIN_TOKEN in g.value.value {
      var c := CheckToken(g.w, n.register, g.value.value[JOIN_TOKEN], ROLE_NODE);
      CallLater(g.w);
      LaterTransitive(w, g.w, c.w);
      if c.Ok? {
        NewSecretLater(cfg, c.w, n);
        LaterTransitive(w, c.w, SecretStep(cfg, w, n).w);
      }
    }
  }

  lemma WriteValuesLater(cfg: Config, w: World, n: Names, data: Data, token: string, roles: seq<string>, tka: string)
    ensures Later(w, WriteValues(cfg, w, n, data, token, roles, tka).w)
  {
    CallLater(w);
  }

  lemma CreateValuesLater(cfg: Config, w: World, n: Names, token: string, roles: seq<string>, tka: string)
    ensures Later(w, CreateValues(cfg, w, n, token, roles, tka).w)
  {
    CallLater(w);
    CallLater(Call(w).w);
    LaterTransitive(w, Call(w).w, Call(Call(w).w).w);
  }

  lemma RotateLater(cfg: Config, w: World, n: Names, data: Data, token: string, roles: seq<string>, tka: string)
    ensures Later(w, Rotate(cfg, w, n, data, token, roles, tka).w)
  {
    var v := Rotate(cfg, w, n, data, token, roles, tka).w;
    var c := CheckToken(w, n.register, token, RolesToString(roles));
    CallLater(w);
    if c.Ok? && c.value {
      WriteValuesLater(cfg, c.w, n, data, token, roles, tka);
      LaterTransitive(w, c.w, v);
    } else if c.Ok? {
      var t := GenerateToken(cfg, c.w, n.register, roles);
      GenerateFrame(cfg, c.w, n.register, roles);
      LaterTransitive(w, c.w, t.w);
      if t.Ok? {
        WriteValuesLater(cfg, t.w, n, data, t.value, roles, tka);
        LaterTransitive(w, t.w, v);
      }
    }
  }

  lemma ConfigMapStepLater(cfg: Config, w: World, n: Names, roles: seq<string>, tka: string)
    ensures Later(w, ConfigMapStep(cfg, w, n, roles, tka).w)
  {
    var v := ConfigMapStep(cfg, w, n, roles, tka).w;
    var g := GetConfigMap(w, n.configMap);
    CallLater(w);
    if g.Ok? && g.value.None? {
      var t := GenerateToken(cfg, g.w, n.register, roles);
      GenerateFrame(cfg, g.w, n.register, roles);
      LaterTransitive(w, g.w, t.w);
      if t.Ok? {
        CreateValuesLater(cfg, t.w, n, t.value, roles, tka);
        LaterTransitive(w, t.w, v);
      }
    } else if g.Ok? && GetTokenFromConfigMap(g.value.value).Some? {
      RotateLater(cfg, g.w, n, g.value.value, GetTokenFromConfigMap(g.value.value).value, roles, tka);
      LaterTransitive(w, g.w, v);
    }
  }

  // --- A live reconcile --------------------------------------------------------------------------------------

  lemma PrepareLater(cfg: Config, w: World, n: Names, c: Cluster)
    ensures Later(w, Prepare(cfg, w, n, c).w)
  {
    var r1 := AddFinalizer(w, n.cluster, c);
    FinalizerLater(w, n.cluster, c);
    if r1.Ok? {
      var r2 := SecretStep(cfg, r1.w, n);
      SecretStepLater(cfg, r1.w, n);
      LaterTransitive(w, r1.w, r2.w);
      if r2.Ok? {
        VersionEffect(r2.w, n.agent);
        LaterTransitive(w, r2.w, GetTeleportKubeAgentVersion(r2.w, n.agent).w);
      }
    }
  }

  lemma InjectLater(cfg: Config, w: World, n: Names)
    ensures Later(w, Inject(cfg, w, n).w)
  {
    var r := EnsureReference(w, n.agent, n.configMap.name);
    EnsureReferenceEffect(w, n.agent, n.configMap.name);
    if r.Ok? {
      BotStepKeeps(cfg, r.w, n);
      LaterTransitive(w, r.w, BotStep(cfg, r.w, n).w);
    }
  }

  lemma PublishLater(cfg: Config, w: World, n: Names, roles: seq<string>, tka: string)
    ensures Later(w, Publish(cfg, w, n, roles, tka).w)
  {
    var r := ConfigMapStep(cfg, w, n, roles, tka);
    ConfigMapStepLater(cfg, w, n, roles, tka);
    if r.Ok? {
      InjectLater(cfg, r.w, n);
      LaterTransitive(w, r.w, Inject(cfg, r.w, n).w);
    }
  }

  lemma RegisterLater(cfg: Config, w: World, n: Names, c: Cluster, roles: seq<string>)
    ensures Later(w, Register(cfg, w, n, c, roles).w)
  {
    var r := Prepare(cfg, w, n, c);
    PrepareLater(cfg, w, n, c);
    if r.Ok? {
      PublishLater(cfg, r.w, n, roles, r.value);
      LaterTransitive(w, r.w, Publish(cfg, r.w, n, roles, r.value).w);
    }
  }

  // --- A deletion ----------------------------------------------------------------------------------------------

  lemma DeletionsLater(w: World, k: Key)
    ensures Later(w, DeleteSecret(w, k).w) && Later(w, DeleteConfigMap(w, k).w)
  {
    CallLater(w);
  }

  lemma RevokeLater(w: World, n: Names)
    ensures Later(w, Revoke(w, n).w)
  {
    var r1 := DeleteToken(w, n.register);
    DeleteTokenFrame(w, n.register);
    if r1.Ok? {
      var r2 := DeleteSecret(r1.w, n.secret);
      DeletionsLater(r1.w, n.secret);
      LaterTransitive(w, r1.w, r2.w);
      if r2.Ok? {
        DeletionsLater(r2.w, n.configMap);
        LaterTransitive(w, r2.w, DeleteConfigMap(r2.w, n.configMap).w);
      }
    }
  }

  lemma DeleteBotLater(cfg: Config, w: World, n: Names)
    ensures Later(w, DeleteBot(cfg, w, n).w)
  {
    var r1 := DeleteReference(w, n.bot, n.botConfigMap.name);
    DeleteReferenceEffect(w, n.bot, n.botConfigMap.name);
    if cfg.botEnabled && r1.Ok? {
      var r2 := DeleteConfigMap(r1.w, n.botConfigMap);
      DeletionsLater(r1.w, n.botConfigMap);
      LaterTransitive(w, r1.w, r2.w);
      if r2.Ok? {
        DeletionsLater(r2.w, n.kubeconfig);
        LaterTransitive(w, r2.w, DeleteSecret(r2.w, n.kubeconfig).w);
      }
    }
  }

  lemma ReleaseLater(w: World, n: Names, c: Cluster)
    ensures Later(w, Release(w, n, c).w)
  {
    var r := DeleteReference(w, n.agent, n.configMap.name);
    DeleteReferenceEffect(w, n.agent, n.configMap.name);
    if r.Ok? {
      FinalizerLater(r.w, n.cluster, c);
      LaterTransitive(w, r.w, RemoveFinalizer(r.w, n.cluster, c).w);
    }
  }

  lemma DeregisterLater(cfg: Config, w: World, n: Names, c: Cluster)
    ensures Later(w, Deregister(cfg, w, n, c).w)
  {
    var r1 := Revoke(w, n);
    RevokeLater(w, n);
    if r1.Ok? {
      var r2 := DeleteBot(cfg, r1.w, n);
      DeleteBotLater(cfg, r1.w, n);
      LaterTransitive(w, r1.w, r2.w);
      if r2.Ok? {
        ReleaseLater(r2.w, n, c);
        LaterTransitive(w, r2.w, Release(r2.w, n, c).w);
      }
    }
  }

  /** The work on a cluster ends no earlier than it began, and no later than its calls allow. */
  lemma ManageLater(cfg: Config, w: World, k: Key, c: Cluster, roles: seq<string>)
    ensures Later(w, Manage(cfg, w, k, c, roles).w)
  {
    DeregisterLater(cfg, w, NamesOf(cfg, k), c);
    RegisterLater(cfg, w, NamesOf(cfg, k), c, roles);
  }
}
