/** The world outside the operator: the Kubernetes API server, the Teleport token service, the token
    generator and the clock, with one function for each client call. */
module Environment {
  import opened Prelude
  import opened Keys
  import opened Documents
  import opened Tokens
  import opened References

  datatype Cluster = Cluster(finalizers: seq<string>, deleting: bool)

  /** `script` drives the calls still to come: each successful call takes the time its entry says, and with no
      entry left the next call fails. A failing call has no effect. */
  datatype World = World(
    clusters: map<Key, Cluster>,
    appsEnabled: set<Key>,              // clusters whose user values enable apps
    secrets: map<Key, Data>,
    configMaps: map<Key, Data>,
    helmReleases: map<Key, HelmRelease>,
    apps: map<Key, App>,
    tokens: seq<Token>,                 // in the order GetTokens lists them
    issued: nat,                        // names drawn from the generator
    writes: nat,                        // Kubernetes write requests served
    now: int,
    script: seq<nat>)

  /** The outcome of a piece of Reconcile: it goes on with a value, or has returned an error. Either way `w` is
      what it left behind. */
  datatype Run<+T> = Ok(w: World, value: T) | Fail(w: World) {
    predicate IsFailure() {
      Fail?
    }

    function PropagateFailure<U>(): Run<U>
      requires Fail?
    {
      Fail(w)
    }

    function Extract(): (World, T)
      requires Ok?
    {
      (w, value)
    }
  }

  function Call(w: World): Run<()> {
    if w.script == [] then Fail(w) else Ok(w.(now := w.now + w.script[0], script := w.script[1..]), ())
  }

  // --- Reads -----------------------------------------------------------------------------------

  function GetCluster(w: World, k: Key): Run<Option<Cluster>> {
    var (w1, _) :- Call(w);
    Ok(w1, Lookup(w1.clusters, k))
  }

  function AreTeleportAppsEnabled(w: World, k: Key): Run<bool> {
    var (w1, _) :- Call(w);
    Ok(w1, k in w1.appsEnabled)
  }

  function GetSecret(w: World, k: Key): Run<Option<Data>> {
    var (w1, _) :- Call(w);
    Ok(w1, Lookup(w1.secrets, k))
  }

  function GetConfigMap(w: World, k: Key): Run<Option<Data>> {
    var (w1, _) :- Call(w);
    Ok(w1, Lookup(w1.configMaps, k))
  }

  function GetHelmRelease(w: World, k: Key): Run<Option<HelmRelease>> {
    var (w1, _) :- Call(w);
    Ok(w1, Lookup(w1.helmReleases, k))
  }

  function GetApp(w: World, k: Key): Run<Option<App>> {
    var (w1, _) :- Call(w);
    Ok(w1, Lookup(w1.apps, k))
  }

  function GetTokens(w: World): Run<seq<Token>> {
    var (w1, _) :- Call(w);
    Ok(w1, w1.tokens)
  }

  // --- Writes ----------------------------------------------------------------------------------

  /** Creating an object that exists is an error. */
  function CreateSecret(w: World, k: Key, data: Data): Run<()> {
    var (w1, _) :- Call(w);
    if k in w1.secrets then Fail(w1) else Ok(w1.(secrets := w1.secrets[k := data], writes := w1.writes + 1), ())
  }

  /** Updating an object that does not exist is an error. The whole Data is replaced. */
  function UpdateSecret(w: World, k: Key, data: Data): Run<()> {
    var (w1, _) :- Call(w);
    if k !in w1.secrets then Fail(w1) else Ok(w1.(secrets := w1.secrets[k := data], writes := w1.writes + 1), ())
  }

  /** The callers treat "not found" as success. */
  function DeleteSecret(w: World, k: Key): Run<()> {
    var (w1, _) :- Call(w);
    Ok(w1.(secrets := w1.secrets - {k}, writes := w1.writes + 1), ())
  }

  function CreateConfigMap(w: World, k: Key, data: Data): Run<()> {
    var (w1, _) :- Call(w);
    if k in w1.configMaps then Fail(w1)
    else Ok(w1.(configMaps := w1.configMaps[k := data], writes := w1.writes + 1), ())
  }

  function UpdateConfigMap(w: World, k: Key, data: Data): Run<()> {
    var (w1, _) :- Call(w);
    if k !in w1.configMaps then Fail(w1)
    else Ok(w1.(configMaps := w1.configMaps[k := data], writes := w1.writes + 1), ())
  }

  function DeleteConfigMap(w: World, k: Key): Run<()> {
    var (w1, _) :- Call(w);
    Ok(w1.(configMaps := w1.configMaps - {k}, writes := w1.writes + 1), ())
  }

  function UpdateHelmRelease(w: World, k: Key, hr: HelmRelease): Run<()> {
    var (w1, _) :- Call(w);
    if k !in w1.helmReleases then Fail(w1)
    else Ok(w1.(helmReleases := w1.helmReleases[k := hr], writes := w1.writes + 1), ())
  }

  function UpdateApp(w: World, k: Key, app: App): Run<()> {
    var (w1, _) :- Call(w);
    if k !in w1.apps then Fail(w1) else Ok(w1.(apps := w1.apps[k := app], writes := w1.writes + 1), ())
  }

  /** A Cluster marked for deletion goes away with its last finalizer. Patching a Cluster that is gone is
      swallowed by the callers. */
  function PatchFinalizers(w: World, k: Key, finalizers: seq<string>): Run<()> {
    var (w1, _) :- Call(w);
    if k !in w1.clusters then Ok(w1, ())
    else
      var clusters := if w1.clusters[k].deleting && finalizers == [] then w1.clusters - {k}
                      else w1.clusters[k := w1.clusters[k].(finalizers := finalizers)];
      Ok(w1.(clusters := clusters, writes := w1.writes + 1), ())
  }

  function UpsertToken(w: World, t: Token): Run<()> {
    var (w1, _) :- Call(w);
    Ok(w1.(tokens := Upsert(w1.tokens, t)), ())
  }

  function DeleteTokenByName(w: World, name: string): Run<()> {
    var (w1, _) :- Call(w);
    Ok(w1.(tokens := DeleteByName(w1.tokens, name)), ())
  }
}
