/** Configuration and the names of the objects the operator owns
    (internal/pkg/config/config.go and the name constructors of internal/pkg/key/key.go). */
module Keys {
  import opened Prelude
  import opened Versions

  /** Namespace and name. */
  datatype Key = Key(ns: string, name: string)

  const FINALIZER := "teleport.finalizer.giantswarm.io"
  const BOT_NAMESPACE := "giantswarm"
  const BOT_APP_NAME := "teleport-tbot"
  const IDENTITY_SECRET := "identity-output"

  /** The operator's configuration. `semver` is the version library and `generate` the token generator:
      `generate(i)` is the name that its i-th call returns. */
  datatype Config = Config(
    proxyAddr: string,
    teleportVersion: string,
    managementClusterName: string,
    appName: string,
    namespace: string,
    botEnabled: bool,
    semver: Parser,
    generate: nat -> string)

  function GetConfigmapName(clusterName: string, appName: string): string {
    clusterName + "-" + appName + "-config"
  }

  function GetTbotConfigmapName(clusterName: string): string {
    "teleport-tbot-" + clusterName + "-config"
  }

  function GetSecretName(clusterName: string): string {
    clusterName + "-teleport-join-token"
  }

  function GetKubeconfigSecretName(clusterName: string): string {
    "teleport-" + clusterName + "-kubeconfig"
  }

  function GetRegisterName(managementClusterName: string, clusterName: string): string {
    managementClusterName + "-" + clusterName
  }

  function GetAppName(clusterName: string, appName: string): string {
    clusterName + "-" + appName
  }

  /** Everything Reconcile names on behalf of one cluster. */
  datatype Names = Names(
    cluster: Key,
    register: string,      // Teleport label of the cluster's tokens
    secret: Key,           // node join token
    configMap: Key,        // values of teleport-kube-agent
    kubeconfig: Key,       // written by tbot, deleted by the operator
    botConfigMap: Key,     // values of tbot for this cluster
    agent: Key,            // HelmRelease or App of teleport-kube-agent
    bot: Key)              // HelmRelease or App of tbot, shared by all clusters

  function RegisterName(cfg: Config, clusterName: string): string {
    if clusterName != cfg.managementClusterName then GetRegisterName(cfg.managementClusterName, clusterName)
    else clusterName
  }

  function NamesOf(cfg: Config, k: Key): Names {
    Names(
      k,
      RegisterName(cfg, k.name),
      Key(k.ns, GetSecretName(k.name)),
      Key(k.ns, GetConfigmapName(k.name, cfg.appName)),
      Key(BOT_NAMESPACE, GetKubeconfigSecretName(k.name)),
      Key(BOT_NAMESPACE, GetTbotConfigmapName(k.name)),
      Key(k.ns, GetAppName(k.name, cfg.appName)),
      Key(BOT_NAMESPACE, BOT_APP_NAME))
  }
}
