/** When a reconcile reaches its goal: exactly when the stored Secret and ConfigMap can be recovered from. */
module Convergence {
  import opened Prelude
  import opened Roles
  import opened Keys
  import opened Values
  import opened Documents
  import opened Layouts
  import opened Tokens
  import opened Environment
  import opened Machine
  import opened Effects
  import opened Steps
  import opened Injection
  import opened Registration
  import opened Progress

  predicate RecoverableData(n: Names, data: Data) {
    GetTokenFromConfigMap(data).Some? && RegisterNameFromConfigMap(data) == Some(n.register)
  }

  /** The Secret is absent or has a join token; the ConfigMap is absent or readable under the cluster's own
      register name. */
  predicate Recoverable(n: Names, w: World) {
    && (n.secret in w.secrets ==> JOIN_TOKEN in w.secrets[n.secret])
    && (n.configMap in w.configMaps ==> RecoverableData(n, w.configMaps[n.configMap]))
  }

  /** No stored token is a name the generator has yet to return. */
  ghost predicate StoredBefore(cfg: Config, n: Names, w: World) {
    && (n.secret in w.secrets && JOIN_TOKEN in w.secrets[n.secret] ==>
          NotFuture(cfg, w.issued, w.secrets[n.secret][JOIN_TOKEN]))
    && (n.configMap in w.configMaps && GetTokenFromConfigMap(w.configMaps[n.configMap]).Some? ==>
          NotFuture(cfg, w.issued, GetTokenFromConfigMap(w.configMaps[n.configMap]).value))
  }

  lemma ReadableMeans(cfg: Config, n: Names, w: World)
    ensures Readable(cfg, n, w) <==> Recoverable(n, w) && StoredBefore(cfg, n, w)
  {
  }

  // --- An unrecoverable ConfigMap stays so ---------------------------------------------------------------

  predicate Stuck(n: Names, configMaps: map<Key, Data>) {
    n.configMap in configMaps && !RecoverableData(n, configMaps[n.configMap])
  }

  /** Stuck as before, under the very name it had, if it has one. */
  predicate StillStuck(n: Names, before: map<Key, Data>, after: map<Key, Data>)
    requires Stuck(n, before)
  {
    Stuck(n, after)
    && RegisterNameFromConfigMap(after[n.configMap]) == RegisterNameFromConfigMap(before[n.configMap])
  }

  lemma StuckIsNotCurrent(cfg: Config, n: Names, w: World, roles: seq<string>, tka: string, now: int)
    requires WellFormed(cfg, n) && TokenRoles(roles) && Stuck(n, w.configMaps)
    ensures !ValuesCurrent(cfg, n, w.configMaps, w.tokens, roles, tka, now)
  {
    var data := w.configMaps[n.configMap];
    if ValuesCurrent(cfg, n, w.configMaps, w.tokens, roles, tka, now) {
      ParsedStringsSafe(data);
      RenderedReadsBack(cfg, n, data, GetTokenFromConfigMap(data).value, roles, tka);
    }
  }

  lemma ForeignIsNotRendered(cfg: Config, n: Names, data: Data, token: string, roles: seq<string>, tka: string)
    requires WellFormed(cfg, n) && Safe(token) && TokenRoles(roles) && !RecoverableData(n, data) && VALUES in data
    ensures data[VALUES] != RenderConfigMapValues(cfg, n.register, token, roles, tka)
  {
    if data[VALUES] == RenderConfigMapValues(cfg, n.register, token, roles, tka) {
      RenderedReadsBack(cfg, n, data, token, roles, tka);
    }
  }

  lemma UpdateKeepsForeignName(cfg: Config, n: Names, data: Data, token: string, roles: seq<string>, tka: string)
    requires WellFormed(cfg, n) && Safe(token) && TokenRoles(roles)
    requires !RecoverableData(n, data) && GetTokenFromConfigMap(data).Some?
    ensures var updated := UpdatedData(cfg, data, token, roles, tka);
            updated.Some? ==>
              && !RecoverableData(n, updated.value)
              && RegisterNameFromConfigMap(updated.value) == RegisterNameFromConfigMap(data)
  {
    if RegisterNameFromConfigMap(data).Some? {
      UpdatePreservesMeaning(cfg, data, token, roles, tka);
    }
  }

  /** Rewriting under a foreign name keeps the foreign name. */
  lemma WriteValuesStuck(cfg: Config, w: World, n: Names, token: string, roles: seq<string>, tka: string)
    requires WellFormed(cfg, n) && Safe(token) && TokenRoles(roles) && Stuck(n, w.configMaps)
    requires GetTokenFromConfigMap(w.configMaps[n.configMap]).Some?
    ensures var r := WriteValues(cfg, w, n, w.configMaps[n.configMap], token, roles, tka);
            StillStuck(n, w.configMaps, r.w.configMaps) && (r.Ok? ==> r.w.writes == w.writes + 1)
  {
    var data := w.configMaps[n.configMap];
    var updated := UpdatedData(cfg, data, token, roles, tka);
    UpdateKeepsForeignName(cfg, n, data, token, roles, tka);
    if VALUES in data {
      ForeignIsNotRendered(cfg, n, data, token, roles, tka);
    }
    if updated.Some? {
      PutConfigMap(w, n.configMap, updated.value);
    }
  }

  lemma RotateStuck(cfg: Config, w: World, n: Names, roles: seq<string>, tka: string)
    requires WellFormed(cfg, n) && TokenRoles(roles) && FreshNames(cfg, w) && Stuck(n, w.configMaps)
    requires GetTokenFromConfigMap(w.configMaps[n.configMap]).Some?
    ensures var data := w.configMaps[n.configMap];
            var r := Rotate(cfg, w, n, data, GetTokenFromConfigMap(data).value, roles, tka);
            StillStuck(n, w.configMaps, r.w.configMaps) && (r.Ok? ==> r.w.writes == w.writes + 1)
  {
    var data := w.configMaps[n.configMap];
    var token := GetTokenFromConfigMap(data).value;
    ParsedStringsSafe(data);
    CheckTokenExactly(w, n.register, token, roles);
    CallOnlyLater(w);
    var c := CheckToken(w, n.register, token, RolesToString(roles));
    if c.Ok? {
      if c.value {
        WriteValuesStuck(cfg, c.w, n, token, roles, tka);
      } else {
        GenerateEffect(cfg, c.w, n, roles);
        var t := GenerateToken(cfg, c.w, n.register, roles);
        if t.Ok? {
          WriteValuesStuck(cfg, t.w, n, t.value, roles, tka);
        }
      }
    }
  }

  /** An unrecoverable document keeps the name it has; if its token and name can be read, an uninterrupted step
      succeeds, and every successful step rewrites it. */
  lemma ConfigMapStepStuck(cfg: Config, w: World, n: Names, roles: seq<string>, tka: string)
    requires WellFormed(cfg, n) && TokenRoles(roles) && FreshNames(cfg, w) && Stuck(n, w.configMaps)
    ensures var r := ConfigMapStep(cfg, w, n, roles, tka);
            StillStuck(n, w.configMaps, r.w.configMaps) && (r.Ok? ==> r.w.writes == w.writes + 1)
    ensures |w.script| >= 4 && GetTokenFromConfigMap(w.configMaps[n.configMap]).Some?
            && RegisterNameFromConfigMap(w.configMaps[n.configMap]).Some? ==>
              ConfigMapStep(cfg, w, n, roles, tka).Ok?
  {
    CallOnlyLater(w);
    if |w.script| >= 4 && GetTokenFromConfigMap(w.configMaps[n.configMap]).Some?
       && RegisterNameFromConfigMap(w.configMaps[n.configMap]).Some? {
      ConfigMapStepCompletes(cfg, w, n, roles, tka);
    }
    if Call(w).Ok? && GetTokenFromConfigMap(w.configMaps[n.configMap]).Some? {
      RotateStuck(cfg, Call(w).w, n, roles, tka);
    }
  }

  lemma PrepareFrame(cfg: Config, w: World, n: Names, c: Cluster)
    requires GoodGenerator(cfg) && FreshNames(cfg, w) && n.cluster in w.clusters && w.clusters[n.cluster] == c
    ensures var r := Prepare(cfg, w, n, c);
            FreshNames(cfg, r.w) && r.w.configMaps == w.configMaps
  {
    AddFinalizerEffect(w, n.cluster, c);
    var r1 := AddFinalizer(w, n.cluster, c);
    if r1.Ok? {
      SecretStepEffect(cfg, r1.w, n);
      SecretStepContained(cfg, r1.w, n);
      var r2 := SecretStep(cfg, r1.w, n);
      if r2.Ok? {
        VersionEffect(r2.w, n.agent);
      }
    }
  }

  lemma InjectFrame(cfg: Config, w: World, n: Names)
    requires n.configMap in w.configMaps
    ensures var r := Inject(cfg, w, n);
            n.configMap in r.w.configMaps && r.w.configMaps[n.configMap] == w.configMaps[n.configMap]
  {
    EnsureReferenceKeeps(w, n.agent, n.configMap.name, n.agent, n.configMap.name);
    var r := EnsureReference(w, n.agent, n.configMap.name);
    if r.Ok? {
      BotStepKeeps(cfg, r.w, n);
    }
  }

  lemma RegisterStuck(cfg: Config, w: World, n: Names, c: Cluster, roles: seq<string>)
    requires WellFormed(cfg, n) && TokenRoles(roles) && FreshNames(cfg, w) && Stuck(n, w.configMaps)
    requires n.cluster in w.clusters && w.clusters[n.cluster] == c
    ensures StillStuck(n, w.configMaps, Register(cfg, w, n, c, roles).w.configMaps)
  {
    PrepareFrame(cfg, w, n, c);
    var r1 := Prepare(cfg, w, n, c);
    if r1.Ok? {
      ConfigMapStepStuck(cfg, r1.w, n, roles, r1.value);
      var r2 := ConfigMapStep(cfg, r1.w, n, roles, r1.value);
      if r2.Ok? {
        InjectFrame(cfg, r2.w, n);
      }
    }
  }

  lemma NoJoinTokenFails(cfg: Config, w: World, n: Names, c: Cluster, roles: seq<string>)
    requires n.secret in w.secrets && JOIN_TOKEN !in w.secrets[n.secret]
    requires n.cluster in w.clusters && w.clusters[n.cluster] == c
    ensures var r := Register(cfg, w, n, c, roles);
            r.Fail? && r.w.secrets == w.secrets
  {
    AddFinalizerEffect(w, n.cluster, c);
  }

  /** What cannot be recovered from is not recovered from. */
  lemma UnrecoverableStays(cfg: Config, w: World, n: Names, c: Cluster, roles: seq<string>)
    requires WellFormed(cfg, n) && TokenRoles(roles) && FreshNames(cfg, w) && !Recoverable(n, w)
    requires n.cluster in w.clusters && w.clusters[n.cluster] == c
    ensures !Recoverable(n, Register(cfg, w, n, c, roles).w)
  {
    if n.secret in w.secrets && JOIN_TOKEN !in w.secrets[n.secret] {
      NoJoinTokenFails(cfg, w, n, c, roles);
    } else {
      RegisterStuck(cfg, w, n, c, roles);
    }
  }

  // --- The theorem ---------------------------------------------------------------------------------------

  /** An uninterrupted live reconcile, past the gate, registers the cluster, with tokens valid no earlier than its
      start, if and only if what was stored is recoverable. */
  lemma RegisterExactly(cfg: Config, w: World, n: Names, c: Cluster, roles: seq<string>, now: int)
    requires WellFormed(cfg, n) && TokenRoles(roles) && FreshNames(cfg, w) && StoredBefore(cfg, n, w)
    requires n.cluster in w.clusters && w.clusters[n.cluster] == c
    requires |w.script| >= REGISTER_CALLS && now <= w.now
    ensures var r := Register(cfg, w, n, c, roles);
            && (Registered(cfg, n, r.w, roles, now) <==> Recoverable(n, w))
            && (Recoverable(n, w) ==> r.Ok?)
  {
    var r := Register(cfg, w, n, c, roles);
    if Recoverable(n, w) {
      ReadableMeans(cfg, n, w);
      PrepareCompletes(cfg, w, n, c);
      PrepareFrame(cfg, w, n, c);
      var p := Prepare(cfg, w, n, c);
      PublishCompletes(cfg, p.w, n, roles, p.value);
      RegisterReaches(cfg, w, n, c, roles);
      RegisteredEarlier(cfg, n, r.w, roles, now, w.now);
    } else if n.secret in w.secrets && JOIN_TOKEN !in w.secrets[n.secret] {
      NoJoinTokenFails(cfg, w, n, c, roles);
    } else {
      RegisterStuck(cfg, w, n, c, roles);
      StuckIsNotCurrent(cfg, n, r.w, roles, AgentVersion(r.w, n.agent), now);
    }
  }
}
