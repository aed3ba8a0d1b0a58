/** Reconcile as the controller runs it, one client call after another, with its memory in fields
    (internal/controller/cluster_controller.go). */
module Controller {
  import opened Prelude
  import opened Roles
  import opened Keys
  import opened Documents
  import opened Environment
  import opened IdentityGate
  import Machine
  import opened Server
  import opened Teleport

  class ClusterReconciler {
    const teleport: Teleport
    const server: Server
    var lastAssignedRoles: seq<string>

    constructor (teleport: Teleport)
      requires teleport.identity == None
      ensures this.teleport == teleport && server == teleport.server && Valid()
      ensures Mem() == Machine.Memory(None, teleport.client, [])
    {
      this.teleport, server, lastAssignedRoles := teleport, teleport.server, [];
    }

    function Mem(): Machine.Memory
      reads this, teleport
    {
      Machine.Memory(teleport.identity, teleport.client, lastAssignedRoles)
    }

    ghost predicate Valid()
      reads this, teleport, server
    {
      teleport.server == server && Connected(Mem(), server.world.now)
    }

    /** Nothing gets past this method unless the Teleport client is there. */
    method EnsureClient() returns (r: Result<()>)
      requires Valid()
      modifies teleport, server
      ensures var gate := Machine.Gate(teleport.cfg, old(server.world), old(Mem()));
              server.world == gate.run.w && r == Verdict(gate.run) && Mem() == gate.mem
      ensures r.Success? ==> teleport.client.Some?
    {
      if teleport.identity.None?
        || server.world.now - teleport.identity.value.lastRead > Machine.IDENTITY_EXPIRATION_PERIOD
      {
        var newIdentityConfig :- teleport.GetIdentityConfigFromSecret();
        var connected := server.Do(w => Call(w));
        if connected.Failure? {
          teleport.client := None;
          return Failure;
        }
        teleport.client := Some(newIdentityConfig.file);
        teleport.identity := Some(newIdentityConfig);
      }
      return Success(());
    }

    method EnsureSecret(n: Names) returns (r: Result<()>)
      requires teleport.server == server && teleport.client.Some?
      modifies server
      ensures var run := Machine.SecretStep(teleport.cfg, old(server.world), n);
              server.world == run.w && r == Verdict(run)
    {
      var secret :- server.Do(w => GetSecret(w, n.secret));
      if secret.None? {
        var token :- teleport.GenerateToken(n.register, [ROLE_NODE]);
        r := server.Do(w => CreateSecret(w, n.secret, map[Machine.JOIN_TOKEN := token]));
      } else {
        if Machine.JOIN_TOKEN !in secret.value {
          return Failure;
        }
        var tokenValid :- teleport.IsTokenValid(n.register, secret.value[Machine.JOIN_TOKEN], ROLE_NODE);
        if tokenValid {
          return Success(());
        }
        var token :- teleport.GenerateToken(n.register, [ROLE_NODE]);
        r := server.Do(w => UpdateSecret(w, n.secret, map[Machine.JOIN_TOKEN := token]));
      }
    }

    method EnsureConfigMap(n: Names, roles: seq<string>, tkaVersion: string) returns (r: Result<()>)
      requires teleport.server == server && teleport.client.Some?
      modifies server
      ensures var run := Machine.ConfigMapStep(teleport.cfg, old(server.world), n, roles, tkaVersion);
              server.world == run.w && r == Verdict(run)
    {
      var configMap :- server.Do(w => GetConfigMap(w, n.configMap));
      if configMap.None? {
        var token :- teleport.GenerateToken(n.register, roles);
        r := teleport.CreateConfigMap(n, token, roles, tkaVersion);
      } else {
        var stored := GetTokenFromConfigMap(configMap.value);
        if stored.None? {
          return Failure;
        }
        r := RotateConfigMap(n, configMap.value, stored.value, roles, tkaVersion);
      }
    }

    /** One comparison of bytes catches rotation, version drift and layout changes alike. */
    method RotateConfigMap(n: Names, configMap: Data, token: string, roles: seq<string>, tkaVersion: string)
      returns (r: Result<()>)
      requires teleport.server == server && teleport.client.Some?
      modifies server
      ensures var run := Machine.Rotate(teleport.cfg, old(server.world), n, configMap, token, roles, tkaVersion);
              server.world == run.w && r == Verdict(run)
    {
      var tokenValid :- teleport.IsTokenValid(n.register, token, RolesToString(roles));
      var writeToken := token;
      if !tokenValid {
        writeToken :- teleport.GenerateToken(n.register, roles);
      }
      var desiredValues := teleport.RenderValues(n.register, writeToken, roles, tkaVersion);
      if VALUES in configMap && configMap[VALUES] == desiredValues {
        return Success(());
      }
      r := teleport.UpdateConfigMap(n, configMap, writeToken, roles, tkaVersion);
    }

    method EnsureReference(resource: Key, configMapName: string) returns (r: Result<()>)
      requires teleport.server == server
      modifies server
      ensures var run := Machine.EnsureReference(old(server.world), resource, configMapName);
              server.world == run.w && r == Verdict(run)
    {
      var mgr :- teleport.NewTeleportAppConfigManager(resource, configMapName);
      r := teleport.EnsureConfig(mgr);
    }

    method DeleteReference(resource: Key, configMapName: string) returns (r: Result<()>)
      requires teleport.server == server
      modifies server
      ensures var run := Machine.DeleteReference(old(server.world), resource, configMapName);
              server.world == run.w && r == Verdict(run)
    {
      var mgr :- teleport.NewTeleportAppConfigManager(resource, configMapName);
      r := teleport.DeleteConfig(mgr);
    }

    method EnsureBot(n: Names) returns (r: Result<()>)
      requires teleport.server == server
      modifies server
      ensures var run := Machine.BotStep(teleport.cfg, old(server.world), n);
              server.world == run.w && r == Verdict(run)
    {
      if teleport.cfg.botEnabled {
        var secret :- server.Do(w => GetSecret(w, n.kubeconfig));
        if secret.None? {
          var _ :- teleport.EnsureTbotConfigMap(n);
          var _ :- EnsureReference(n.bot, n.botConfigMap.name);
        }
      }
      return Success(());
    }

    method Register(n: Names, cluster: Cluster, roles: seq<string>) returns (r: Result<int>)
      requires teleport.server == server && teleport.client.Some?
      modifies server
      ensures var run := Machine.Register(teleport.cfg, old(server.world), n, cluster, roles);
              server.world == run.w && r == Verdict(run)
    {
      if FINALIZER !in cluster.finalizers {
        var _ :- teleport.AddFinalizer(n.cluster, cluster);
      }
      var _ :- EnsureSecret(n);
      var tkaVersion :- teleport.GetTeleportKubeAgentVersion(n.agent);
      var _ :- EnsureConfigMap(n, roles, tkaVersion);
      var _ :- EnsureReference(n.agent, n.configMap.name);
      var _ :- EnsureBot(n);
      return Success(Machine.REQUEUE_AFTER);
    }

    method Deregister(n: Names, cluster: Cluster) returns (r: Result<int>)
      requires teleport.server == server && teleport.client.Some?
      modifies server
      ensures var run := Machine.Deregister(teleport.cfg, old(server.world), n, cluster);
              server.world == run.w && r == Verdict(run)
    {
      var _ :- teleport.DeleteToken(n.register);
      var _ :- server.Do(w => DeleteSecret(w, n.secret));
      var _ :- server.Do(w => DeleteConfigMap(w, n.configMap));
      if teleport.cfg.botEnabled {
        var _ :- DeleteReference(n.bot, n.botConfigMap.name);
        var _ :- server.Do(w => DeleteConfigMap(w, n.botConfigMap));
        var _ :- server.Do(w => DeleteSecret(w, n.kubeconfig));
      }
      var _ :- DeleteReference(n.agent, n.configMap.name);
      if FINALIZER in cluster.finalizers {
        var _ :- teleport.RemoveFinalizer(n.cluster, cluster);
      }
      return Success(0);
    }

    method Manage(k: Key, cluster: Cluster, roles: seq<string>) returns (r: Result<int>)
      requires teleport.server == server && teleport.client.Some?
      modifies server
      ensures var run := Machine.Manage(teleport.cfg, old(server.world), k, cluster, roles);
              server.world == run.w && r == Verdict(run)
    {
      var n := NamesOf(teleport.cfg, k);
      if cluster.deleting {
        r := Deregister(n, cluster);
      } else {
        r := Register(n, cluster, roles);
      }
    }

    method ReconcileFound(k: Key, cluster: Cluster, roles: seq<string>) returns (r: Result<int>)
      requires Valid()
      modifies this, teleport, server
      ensures var gate := Machine.Gate(teleport.cfg, old(server.world), old(Mem()).(lastAssignedRoles := roles));
              var run := match gate.run
                         case Fail(w) => Fail(w)
                         case Ok(w, _) => Machine.Manage(teleport.cfg, w, k, cluster, roles);
              server.world == run.w && r == Verdict(run) && Mem() == gate.mem
    {
      lastAssignedRoles := roles;
      var _ :- EnsureClient();
      r := Manage(k, cluster, roles);
    }

    /** The whole reconcile does what the machine says to the world, to the verdict and to the memory, and it
        leaves the object valid for the next one. */
    method Reconcile(k: Key) returns (r: Result<int>)
      requires Valid()
      modifies this, teleport, server
      ensures var o := Machine.Reconcile(teleport.cfg, old(server.world), old(Mem()), k);
              server.world == o.run.w && r == Verdict(o.run) && Mem() == o.mem
      ensures Valid()
    {
      ReconcileKeepsConnected(teleport.cfg, server.world, Mem(), k,
                              Machine.Reconcile(teleport.cfg, server.world, Mem(), k).run.w.now);
      var cluster :- server.Do(w => GetCluster(w, k));
      if cluster.None? {
        return Success(0);
      }
      var appsEnabled :- server.Do(w => AreTeleportAppsEnabled(w, k));
      var roles := [ROLE_KUBE];
      if appsEnabled {
        roles := roles + [ROLE_APP];
      }
      assert roles == Machine.RolesFor(appsEnabled);
      r := ReconcileFound(k, cluster.value, roles);
    }
  }
}
