/** Reconcile as a function of the world, step by step (internal/controller/cluster_controller.go and the
    functions it calls). The methods of module Controller are proved against these functions. */
module Machine {
  import opened Prelude
  import opened Roles
  import opened Versions
  import opened Keys
  import opened Documents
  import opened Tokens
  import opened References
  import opened Environment

  const JOIN_TOKEN := "joinToken"
  const IDENTITY := "identity"
  const IDENTITY_EXPIRATION_PERIOD := 20 * MINUTE
  const REQUEUE_AFTER := 5 * MINUTE

  // --- internal/pkg/teleport/token.go -----------------------------------------------------------

  function CheckToken(w: World, registerName: string, token: string, tokenType: string): Run<bool> {
    var (w1, tokens) :- GetTokens(w);
    match ParseRoles(tokenType)
    case None => Fail(w1)
    case Some(expected) => Ok(w1, IsTokenValid(tokens, registerName, token, expected, w1.now))
  }

  /** The name is drawn before the call that stores the token. */
  function GenerateToken(cfg: Config, w: World, registerName: string, roles: seq<string>): Run<string> {
    var name := cfg.generate(w.issued);
    var (w1, _) :- UpsertToken(w.(issued := w.issued + 1), NewToken(name, registerName, roles, w.now));
    Ok(w1, name)
  }

  function DeleteToken(w: World, registerName: string): Run<()> {
    var (w1, tokens) :- GetTokens(w);
    match FirstLabelled(tokens, registerName)
    case None => Ok(w1, ())
    case Some(name) => DeleteTokenByName(w1, name)
  }

  // --- internal/pkg/teleport/app_manager.go -----------------------------------------------------

  datatype Manager =
    | HelmReleaseManager(resource: Key, configMapName: string)
    | AppManager(resource: Key, configMapName: string)
    | NoOpManager

  /** HelmRelease takes precedence over App. */
  function NewTeleportAppConfigManager(w: World, resource: Key, configMapName: string): Run<Manager> {
    var (w1, hr) :- GetHelmRelease(w, resource);
    if hr.Some? then Ok(w1, HelmReleaseManager(resource, configMapName))
    else
      var (w2, app) :- GetApp(w1, resource);
      Ok(w2, if app.Some? then AppManager(resource, configMapName) else NoOpManager)
  }

  function EnsureConfig(w: World, m: Manager): Run<()> {
    match m
    case NoOpManager => Ok(w, ())
    case HelmReleaseManager(resource, configMapName) =>
      var (w1, hr) :- GetHelmRelease(w, resource);
      if hr.None? then Fail(w1)
      else
        var before := GetValuesFrom(hr.value);
        var updated := AppendReference(before, HelmReference(configMapName));
        if before == updated then Ok(w1, ()) else UpdateHelmRelease(w1, resource, SetValuesFrom(hr.value, updated))
    case AppManager(resource, configMapName) =>
      var (w1, app) :- GetApp(w, resource);
      if app.None? then Fail(w1)
      else
        var before := app.value.extraConfigs;
        var updated := AppendReference(before, AppReference(configMapName, resource.ns));
        if before == updated then Ok(w1, ()) else UpdateApp(w1, resource, app.value.(extraConfigs := updated))
  }

  function DeleteConfig(w: World, m: Manager): Run<()> {
    match m
    case NoOpManager => Ok(w, ())
    case HelmReleaseManager(resource, configMapName) =>
      var (w1, hr) :- GetHelmRelease(w, resource);
      if hr.None? then Ok(w1, ())
      else
        var before := GetValuesFrom(hr.value);
        var updated := RemoveReference(before, HelmReference(configMapName));
        if before == updated then Ok(w1, ()) else UpdateHelmRelease(w1, resource, SetValuesFrom(hr.value, updated))
    case AppManager(resource, configMapName) =>
      var (w1, app) :- GetApp(w, resource);
      if app.None? then Ok(w1, ())
      else if app.value.extraConfigs.Nil? then Ok(w1, ())
      else
        var before := app.value.extraConfigs;
        var updated := RemoveReference(before, AppReference(configMapName, resource.ns));
        if before == updated then Ok(w1, ()) else UpdateApp(w1, resource, app.value.(extraConfigs := updated))
  }

  /** "" when neither resource exists or reports a version. */
  function GetTeleportKubeAgentVersion(w: World, resource: Key): Run<string> {
    var (w1, hr) :- GetHelmRelease(w, resource);
    if hr.Some? then Ok(w1, HelmChartVersion(hr.value))
    else
      var (w2, app) :- GetApp(w1, resource);
      Ok(w2, if app.Some? then app.value.version else "")
  }

  // --- The parts of Reconcile -------------------------------------------------------------------

  function AddFinalizer(w: World, k: Key, c: Cluster): Run<()> {
    if FINALIZER in c.finalizers then Ok(w, ()) else PatchFinalizers(w, k, c.finalizers + [FINALIZER])
  }

  function RemoveFinalizer(w: World, k: Key, c: Cluster): Run<()> {
    if FINALIZER !in c.finalizers then Ok(w, ()) else PatchFinalizers(w, k, Discard(c.finalizers, {FINALIZER}))
  }

  function SecretStep(cfg: Config, w: World, n: Names): Run<()> {
    var (w1, secret) :- GetSecret(w, n.secret);
    match secret
    case None =>
      var (w2, token) :- GenerateToken(cfg, w1, n.register, [ROLE_NODE]);
      CreateSecret(w2, n.secret, map[JOIN_TOKEN := token])
    case Some(data) =>
      if JOIN_TOKEN !in data then Fail(w1)
      else
        var (w2, valid) :- CheckToken(w1, n.register, data[JOIN_TOKEN], ROLE_NODE);
        if valid then Ok(w2, ())
        else
          var (w3, token) :- GenerateToken(cfg, w2, n.register, [ROLE_NODE]);
          UpdateSecret(w3, n.secret, map[JOIN_TOKEN := token])
  }

  /** CreateConfigMap looks again and leaves a ConfigMap that has appeared alone. */
  function CreateValues(cfg: Config, w: World, n: Names, token: string, roles: seq<string>, tkaVersion: string): Run<()> {
    var (w1, found) :- GetConfigMap(w, n.configMap);
    if found.Some? then Ok(w1, ())
    else
      CreateConfigMap(w1, n.configMap, map[VALUES := RenderConfigMapValues(cfg, n.register, token, roles, tkaVersion)])
  }

  /** The single drift check: the stored bytes against what the template gives for the token to be written. */
  function WriteValues(cfg: Config, w: World, n: Names, data: Data, token: string, roles: seq<string>,
                       tkaVersion: string): Run<()>
  {
    var desired := RenderConfigMapValues(cfg, n.register, token, roles, tkaVersion);
    if VALUES in data && data[VALUES] == desired then Ok(w, ())
    else
      match UpdatedData(cfg, data, token, roles, tkaVersion)
      case None => Fail(w)
      case Some(updated) => UpdateConfigMap(w, n.configMap, updated)
  }

  /** A readable ConfigMap: keep its token if it is valid, else draw a new one, then write on drift. */
  function Rotate(cfg: Config, w: World, n: Names, data: Data, token: string, roles: seq<string>, tkaVersion: string):
    Run<()>
  {
    var (w1, valid) :- CheckToken(w, n.register, token, RolesToString(roles));
    if valid then WriteValues(cfg, w1, n, data, token, roles, tkaVersion)
    else
      var (w2, newToken) :- GenerateToken(cfg, w1, n.register, roles);
      WriteValues(cfg, w2, n, data, newToken, roles, tkaVersion)
  }

  function ConfigMapStep(cfg: Config, w: World, n: Names, roles: seq<string>, tkaVersion: string): Run<()> {
    var (w1, configMap) :- GetConfigMap(w, n.configMap);
    match configMap
    case None =>
      var (w2, token) :- GenerateToken(cfg, w1, n.register, roles);
      CreateValues(cfg, w2, n, token, roles, tkaVersion)
    case Some(data) =>
      match GetTokenFromConfigMap(data)
      case None => Fail(w1)
      case Some(token) => Rotate(cfg, w1, n, data, token, roles, tkaVersion)
  }

  function EnsureReference(w: World, resource: Key, configMapName: string): Run<()> {
    var (w1, m) :- NewTeleportAppConfigManager(w, resource, configMapName);
    EnsureConfig(w1, m)
  }

  function DeleteReference(w: World, resource: Key, configMapName: string): Run<()> {
    var (w1, m) :- NewTeleportAppConfigManager(w, resource, configMapName);
    DeleteConfig(w1, m)
  }

  function BotValues(n: Names): Data {
    map[VALUES := "outputs:\n  " + n.register + ": \"" + n.cluster.name + "\"\n"]
  }

  function EnsureTbotConfigMap(w: World, n: Names): Run<()> {
    var (w1, found) :- GetConfigMap(w, n.botConfigMap);
    if found.Some? then Ok(w1, ()) else CreateConfigMap(w1, n.botConfigMap, BotValues(n))
  }

  function AttachBot(w: World, n: Names): Run<()> {
    var (w1, _) :- EnsureTbotConfigMap(w, n);
    EnsureReference(w1, n.bot, n.botConfigMap.name)
  }

  function BotStep(cfg: Config, w: World, n: Names): Run<()> {
    if !cfg.botEnabled then Ok(w, ())
    else
      var (w1, kubeconfig) :- GetSecret(w, n.kubeconfig);
      if kubeconfig.Some? then Ok(w1, ()) else AttachBot(w1, n)
  }

  /** The finalizer, then the Secret, then the chart version that decides the layout. */
  function Prepare(cfg: Config, w: World, n: Names, c: Cluster): Run<string> {
    var (w1, _) :- AddFinalizer(w, n.cluster, c);
    var (w2, _) :- SecretStep(cfg, w1, n);
    GetTeleportKubeAgentVersion(w2, n.agent)
  }

  function Inject(cfg: Config, w: World, n: Names): Run<()> {
    var (w1, _) :- EnsureReference(w, n.agent, n.configMap.name);
    BotStep(cfg, w1, n)
  }

  /** The ConfigMap, then the reference to it, then the bot. */
  function Publish(cfg: Config, w: World, n: Names, roles: seq<string>, tkaVersion: string): Run<()> {
    var (w1, _) :- ConfigMapStep(cfg, w, n, roles, tkaVersion);
    Inject(cfg, w1, n)
  }

  /** Reconcile of a live cluster, past the gate. */
  function Register(cfg: Config, w: World, n: Names, c: Cluster, roles: seq<string>): Run<int> {
    var (w1, tkaVersion) :- Prepare(cfg, w, n, c);
    var (w2, _) :- Publish(cfg, w1, n, roles, tkaVersion);
    Ok(w2, REQUEUE_AFTER)
  }

  function DeleteBot(cfg: Config, w: World, n: Names): Run<()> {
    if !cfg.botEnabled then Ok(w, ())
    else
      var (w1, _) :- DeleteReference(w, n.bot, n.botConfigMap.name);
      var (w2, _) :- DeleteConfigMap(w1, n.botConfigMap);
      DeleteSecret(w2, n.kubeconfig)
  }

  /** One token, the Secret and the values ConfigMap. */
  function Revoke(w: World, n: Names): Run<()> {
    var (w1, _) :- DeleteToken(w, n.register);
    var (w2, _) :- DeleteSecret(w1, n.secret);
    DeleteConfigMap(w2, n.configMap)
  }

  /** The agent's reference, and the finalizer last. */
  function Release(w: World, n: Names, c: Cluster): Run<()> {
    var (w1, _) :- DeleteReference(w, n.agent, n.configMap.name);
    RemoveFinalizer(w1, n.cluster, c)
  }

  /** Reconcile of a cluster marked for deletion, past the gate. */
  function Deregister(cfg: Config, w: World, n: Names, c: Cluster): Run<int> {
    var (w1, _) :- Revoke(w, n);
    var (w2, _) :- DeleteBot(cfg, w1, n);
    var (w3, _) :- Release(w2, n, c);
    Ok(w3, 0)
  }

  // --- The operator's own memory ------------------------------------------------------------------

  datatype Identity = Identity(file: string, lastRead: int)

  /** client is the identity file the Teleport client was built from; None is Go's nil. */
  datatype Memory = Memory(identity: Option<Identity>, client: Option<string>, lastAssignedRoles: seq<string>)

  /** The memory of an operator that has just started. */
  const STARTED := Memory(None, None, [])

  /** All there is to a state of the system. */
  datatype System = System(world: World, mem: Memory)

  predicate Expired(mem: Memory, now: int) {
    mem.identity.None? || now - mem.identity.value.lastRead > IDENTITY_EXPIRATION_PERIOD
  }

  function GetIdentityConfigFromSecret(cfg: Config, w: World): Run<Identity> {
    var (w1, secret) :- GetSecret(w, Key(cfg.namespace, IDENTITY_SECRET));
    if secret.Some? && IDENTITY in secret.value then Ok(w1, Identity(secret.value[IDENTITY], w1.now)) else Fail(w1)
  }

  /** What a reconcile leaves: the world with its verdict, and the memory. */
  datatype Outcome<+T> = Outcome(run: Run<T>, mem: Memory)

  /** Connecting sets the client to nil when it fails, and keeps the identity. */
  function Gate(cfg: Config, w: World, mem: Memory): Outcome<()> {
    if !Expired(mem, w.now) then Outcome(Ok(w, ()), mem)
    else
      match GetIdentityConfigFromSecret(cfg, w)
      case Fail(w1) => Outcome(Fail(w1), mem)
      case Ok(w1, id) =>
        match Call(w1)
        case Fail(w2) => Outcome(Fail(w2), mem.(client := None))
        case Ok(w2, _) => Outcome(Ok(w2, ()), mem.(client := Some(id.file), identity := Some(id)))
  }

  function RolesFor(appsEnabled: bool): seq<string> {
    [ROLE_KUBE] + if appsEnabled then [ROLE_APP] else []
  }

  /** What happens to a cluster once the gate is passed. */
  function Manage(cfg: Config, w: World, k: Key, c: Cluster, roles: seq<string>): Run<int> {
    if c.deleting then Deregister(cfg, w, NamesOf(cfg, k), c) else Register(cfg, w, NamesOf(cfg, k), c, roles)
  }

  function Reconcile(cfg: Config, w: World, mem: Memory, k: Key): Outcome<int> {
    match GetCluster(w, k)
    case Fail(w1) => Outcome(Fail(w1), mem)
    case Ok(w1, None) => Outcome(Ok(w1, 0), mem)
    case Ok(w1, Some(c)) =>
      match AreTeleportAppsEnabled(w1, k)
      case Fail(w2) => Outcome(Fail(w2), mem)
      case Ok(w2, enabled) =>
        var roles := RolesFor(enabled);
        var gate := Gate(cfg, w2, mem.(lastAssignedRoles := roles));
        match gate.run
        case Fail(w3) => Outcome(Fail(w3), gate.mem)
        case Ok(w3, _) => Outcome(Manage(cfg, w3, k, c, roles), gate.mem)
  }
}
