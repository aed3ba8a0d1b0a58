/** The operator's own calls, step by step on a server (internal/pkg/teleport). Each method is proved to do what the
    function of the same name in module Machine says, on success and on failure. */
module Teleport {
  import opened Prelude
  import opened Roles
  import opened Keys
  import opened Documents
  import opened Values
  import opened Tokens
  import opened References
  import opened Environment
  import Machine
  import opened Server

  type Names = Keys.Names

  class Teleport {
    const cfg: Config
    const server: Server
    var identity: Option<Machine.Identity>
    var client: Option<string>     // the identity file it was built from; None is Go's nil

    constructor (cfg: Config, server: Server)
      ensures this.cfg == cfg && this.server == server && identity == None && client == None
    {
      this.cfg, this.server, identity, client := cfg, server, None, None;
    }

    // --- internal/pkg/teleport/token.go ---------------------------------------------------------

    method IsTokenValid(registerName: string, token: string, tokenType: string) returns (r: Result<bool>)
      requires client.Some?
      modifies server
      ensures var run := Machine.CheckToken(old(server.world), registerName, token, tokenType);
              server.world == run.w && r == Verdict(run)
    {
      var tokens :- server.Do(w => GetTokens(w));
      var expectedRoles := ParseRolesLoop(tokenType);
      if expectedRoles.None? {
        return Failure;
      }
      var valid := ScanTokens(tokens, registerName, token, expectedRoles.value, server.world.now);
      return Success(valid);
    }

    method GenerateToken(registerName: string, roles: seq<string>) returns (r: Result<string>)
      requires client.Some?
      modifies server
      ensures var run := Machine.GenerateToken(cfg, old(server.world), registerName, roles);
              server.world == run.w && r == Verdict(run)
    {
      var tokenValidity := server.world.now + TOKEN_VALIDITY;
      var tokenRoles := RolesToSystemRolesLoop(roles);
      var i := server.Draw();
      var token := Token(cfg.generate(i), map[], tokenRoles, Some(tokenValidity));
      token := token.(labels := map[LABEL_CLUSTER := registerName, LABEL_ROLES := RolesToString(roles)]);
      var _ :- server.Do(w => UpsertToken(w, token));
      return Success(token.name);
    }

    /** Returns after the first token of the label. */
    method DeleteToken(registerName: string) returns (r: Result<()>)
      requires client.Some?
      modifies server
      ensures var run := Machine.DeleteToken(old(server.world), registerName);
              server.world == run.w && r == Verdict(run)
    {
      var tokens :- server.Do(w => GetTokens(w));
      var name := FindLabelled(tokens, registerName);
      if name.Some? {
        var _ :- server.Do(w => DeleteTokenByName(w, name.value));
      }
      return Success(());
    }

    // --- internal/pkg/teleport/configmap.go -----------------------------------------------------

    method RenderValues(registerName: string, token: string, roles: seq<string>, tkaVersion: string)
      returns (values: string)
      ensures values == RenderConfigMapValues(cfg, registerName, token, roles, tkaVersion)
    {
      values := BuildConfigmapData(cfg.semver, token, cfg.proxyAddr, registerName, cfg.teleportVersion, roles,
                                   tkaVersion);
    }

    method CreateConfigMap(n: Names, token: string, roles: seq<string>, tkaVersion: string) returns (r: Result<()>)
      modifies server
      ensures var run := Machine.CreateValues(cfg, old(server.world), n, token, roles, tkaVersion);
              server.world == run.w && r == Verdict(run)
    {
      var values := RenderValues(n.register, token, roles, tkaVersion);
      var configMapData := map[VALUES := values];
      var found :- server.Do(w => GetConfigMap(w, n.configMap));
      if found.Some? {
        return Success(());
      }
      r := server.Do(w => Environment.CreateConfigMap(w, n.configMap, configMapData));
    }

    /** The name to write comes from the stored document, not from the cluster. */
    method UpdateConfigMap(n: Names, stored: Data, token: string, roles: seq<string>, tkaVersion: string)
      returns (r: Result<()>)
      modifies server
      ensures var run := match UpdatedData(cfg, stored, token, roles, tkaVersion)
                         case None => Fail(old(server.world))
                         case Some(updated) => Environment.UpdateConfigMap(old(server.world), n.configMap, updated);
              server.world == run.w && r == Verdict(run)
    {
      var registerName := RegisterNameFromConfigMap(stored);
      if registerName.None? {
        return Failure;
      }
      var data := stored;
      var values := RenderValues(registerName.value, token, roles, tkaVersion);
      data := data[VALUES := values];
      r := server.Do(w => Environment.UpdateConfigMap(w, n.configMap, data));
    }

    method EnsureTbotConfigMap(n: Names) returns (r: Result<()>)
      modifies server
      ensures var run := Machine.EnsureTbotConfigMap(old(server.world), n);
              server.world == run.w && r == Verdict(run)
    {
      var found :- server.Do(w => GetConfigMap(w, n.botConfigMap));
      if found.None? {
        var _ :- server.Do(w => Environment.CreateConfigMap(w, n.botConfigMap, Machine.BotValues(n)));
      }
      return Success(());
    }

    // --- internal/pkg/teleport/app_manager.go ---------------------------------------------------

    method NewTeleportAppConfigManager(resource: Key, configMapName: string) returns (r: Result<Machine.Manager>)
      modifies server
      ensures var run := Machine.NewTeleportAppConfigManager(old(server.world), resource, configMapName);
              server.world == run.w && r == Verdict(run)
    {
      var hr :- server.Do(w => GetHelmRelease(w, resource));
      if hr.Some? {
        return Success(Machine.HelmReleaseManager(resource, configMapName));
      }
      var app :- server.Do(w => GetApp(w, resource));
      if app.Some? {
        return Success(Machine.AppManager(resource, configMapName));
      }
      return Success(Machine.NoOpManager);
    }

    method EnsureConfig(m: Machine.Manager) returns (r: Result<()>)
      modifies server
      ensures var run := Machine.EnsureConfig(old(server.world), m);
              server.world == run.w && r == Verdict(run)
    {
      match m
      case NoOpManager =>
        return Success(());
      case HelmReleaseManager(resource, configMapName) =>
        var found :- server.Do(w => GetHelmRelease(w, resource));
        if found.None? {
          return Failure;
        }
        var hr := found.value;
        var before := GetValuesFrom(hr);
        var updated := AppendReferenceLoop(before, HelmReference(configMapName));
        if before == updated {
          return Success(());
        }
        hr := SetValuesFrom(hr, updated);
        r := server.Do(w => UpdateHelmRelease(w, resource, hr));
      case AppManager(resource, configMapName) =>
        var found :- server.Do(w => GetApp(w, resource));
        if found.None? {
          return Failure;
        }
        var app := found.value;
        var before := app.extraConfigs;
        var updated := AppendReferenceLoop(before, AppReference(configMapName, resource.ns));
        app := app.(extraConfigs := updated);
        if before == app.extraConfigs {
          return Success(());
        }
        r := server.Do(w => UpdateApp(w, resource, app));
    }

    method DeleteConfig(m: Machine.Manager) returns (r: Result<()>)
      modifies server
      ensures var run := Machine.DeleteConfig(old(server.world), m);
              server.world == run.w && r == Verdict(run)
    {
      match m
      case NoOpManager =>
        return Success(());
      case HelmReleaseManager(resource, configMapName) =>
        var found :- server.Do(w => GetHelmRelease(w, resource));
        if found.None? {
          return Success(());
        }
        var hr := found.value;
        var before := GetValuesFrom(hr);
        var updated := RemoveReferenceLoop(before, HelmReference(configMapName));
        if before == updated {
          return Success(());
        }
        hr := SetValuesFrom(hr, updated);
        r := server.Do(w => UpdateHelmRelease(w, resource, hr));
      case AppManager(resource, configMapName) =>
        var found :- server.Do(w => GetApp(w, resource));
        if found.None? || found.value.extraConfigs.Nil? {
          return Success(());
        }
        var app := found.value;
        var before := app.extraConfigs;
        var updated := RemoveReferenceLoop(before, AppReference(configMapName, resource.ns));
        app := app.(extraConfigs := updated);
        if before == app.extraConfigs {
          return Success(());
        }
        r := server.Do(w => UpdateApp(w, resource, app));
    }

    method GetTeleportKubeAgentVersion(resource: Key) returns (r: Result<string>)
      modifies server
      ensures var run := Machine.GetTeleportKubeAgentVersion(old(server.world), resource);
              server.world == run.w && r == Verdict(run)
    {
      var hr :- server.Do(w => GetHelmRelease(w, resource));
      if hr.Some? {
        return Success(HelmChartVersion(hr.value));
      }
      var app :- server.Do(w => GetApp(w, resource));
      if app.Some? {
        return Success(app.value.version);
      }
      return Success("");
    }

    // --- internal/pkg/teleport/finalizer.go -----------------------------------------------------

    /** The patch helper sends nothing when nothing changed. */
    method PatchIfChanged(k: Key, before: Cluster, after: Cluster) returns (r: Result<()>)
      modifies server
      ensures var run := if before.finalizers == after.finalizers then Ok(old(server.world), ())
                         else PatchFinalizers(old(server.world), k, after.finalizers);
              server.world == run.w && r == Verdict(run)
    {
      if before.finalizers == after.finalizers {
        return Success(());
      }
      r := server.Do(w => PatchFinalizers(w, k, after.finalizers));
    }

    method AddFinalizer(k: Key, c: Cluster) returns (r: Result<()>)
      modifies server
      ensures var run := Machine.AddFinalizer(old(server.world), k, c);
              server.world == run.w && r == Verdict(run)
    {
      var cluster := c;
      if FINALIZER !in cluster.finalizers {
        cluster := cluster.(finalizers := cluster.finalizers + [FINALIZER]);
      }
      r := PatchIfChanged(k, c, cluster);
    }

    method RemoveFinalizer(k: Key, c: Cluster) returns (r: Result<()>)
      modifies server
      ensures var run := Machine.RemoveFinalizer(old(server.world), k, c);
              server.world == run.w && r == Verdict(run)
    {
      var cluster := c;
      cluster := cluster.(finalizers := Discard(cluster.finalizers, {FINALIZER}));
      DiscardMember(c.finalizers, {FINALIZER}, FINALIZER);
      if FINALIZER !in c.finalizers {
        DiscardNothing(c.finalizers, {FINALIZER});
      }
      r := PatchIfChanged(k, c, cluster);
    }

    // --- internal/pkg/config/identity.go --------------------------------------------------------

    method GetIdentityConfigFromSecret() returns (r: Result<Machine.Identity>)
      modifies server
      ensures var run := Machine.GetIdentityConfigFromSecret(cfg, old(server.world));
              server.world == run.w && r == Verdict(run)
    {
      var secret :- server.Do(w => GetSecret(w, Key(cfg.namespace, IDENTITY_SECRET)));
      if secret.None? || Machine.IDENTITY !in secret.value {
        return Failure;
      }
      return Success(Machine.Identity(secret.value[Machine.IDENTITY], server.world.now));
    }
  }
}
