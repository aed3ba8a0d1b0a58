/** What the tokens that a live reconcile creates look like. */
module Minting {
  import opened Prelude
  import opened Roles
  import opened Keys
  import opened Documents
  import opened Tokens
  import opened Environment
  import opened Machine
  import opened Effects
  import opened Steps
  import opened Injection
  import opened Registration
  import opened Accounting
  import opened Clock

  /** Generated between the two instants for the cluster of that name: its label says so, a second label carries
      its roles, and it expires after 720 hours. */
  predicate Made(t: Token, registerName: string, from: int, to: int) {
    && t.labels.Keys == {"cluster", "roles"}
    && t.labels["cluster"] == registerName
    && ParseRoles(t.labels["roles"]) == Some(LowerAll(t.roles))
    && t.expiry.Some? && from + 720 * HOUR <= t.expiry.value <= to + 720 * HOUR
  }

  /** Tokens were only added, and all of them are so made. */
  predicate OnlyMade(n: Names, w: World, v: World) {
    && w.tokens <= v.tokens
    && forall t :: t in NewTokens(w, v) ==> Made(t, n.register, w.now, v.now)
  }

  lemma NothingMade(n: Names, w: World, v: World)
    requires v.tokens == w.tokens
    ensures OnlyMade(n, w, v)
  {
  }

  lemma MadeTransitive(n: Names, u: World, v: World, w: World)
    requires OnlyMade(n, u, v) && OnlyMade(n, v, w) && u.now <= v.now <= w.now
    ensures OnlyMade(n, u, w)
  {
    assert NewTokens(u, w) == NewTokens(u, v) + NewTokens(v, w);
    forall t | t in NewTokens(u, w) ensures Made(t, n.register, u.now, w.now) {
      if t in NewTokens(u, v) {
        assert Made(t, n.register, u.now, v.now);
      } else {
        assert Made(t, n.register, v.now, w.now);
      }
    }
  }

  lemma NewTokenIsMade(name: string, registerName: string, roles: seq<string>, t0: int, from: int, to: int)
    requires IsRoleList(roles) && from <= t0 <= to
    ensures Made(NewToken(name, registerName, roles, t0), registerName, from, to)
  {
    ParseOfRolesToString(roles);
    LowerOfSystemRoles(roles);
  }

  lemma MintedIsMade(cfg: Config, n: Names, w: World, v: World, roles: seq<string>)
    requires Minted(cfg, w, v, n.register, roles) && IsRoleList(roles)
    ensures OnlyMade(n, w, v)
  {
    var t0 :| w.now <= t0 <= v.now
              && v.tokens == w.tokens + [NewToken(cfg.generate(w.issued), n.register, roles, t0)];
    NewTokenIsMade(cfg.generate(w.issued), n.register, roles, t0, w.now, v.now);
    assert NewTokens(w, v) == [NewToken(cfg.generate(w.issued), n.register, roles, t0)];
  }

  lemma PrepareMade(cfg: Config, w: World, n: Names, c: Cluster)
    requires WellFormed(cfg, n) && FreshNames(cfg, w)
    requires n.cluster in w.clusters && w.clusters[n.cluster] == c
    ensures OnlyMade(n, w, Prepare(cfg, w, n, c).w)
  {
    var r1 := AddFinalizer(w, n.cluster, c);
    AddFinalizerEffect(w, n.cluster, c);
    NothingMade(n, w, r1.w);
    if r1.Ok? {
      var r2 := SecretStep(cfg, r1.w, n);
      SecretStepEffect(cfg, r1.w, n);
      SecretStepLater(cfg, r1.w, n);
      RolesForAreTokenRoles(false);
      if SecretRotated(cfg, r1.w, r2, n) {
        MintedIsMade(cfg, n, r1.w, r2.w, [ROLE_NODE]);
      } else {
        NothingMade(n, r1.w, r2.w);
      }
      MadeTransitive(n, w, r1.w, r2.w);
      if r2.Ok? {
        var r3 := GetTeleportKubeAgentVersion(r2.w, n.agent);
        VersionEffect(r2.w, n.agent);
        NothingMade(n, r2.w, r3.w);
        MadeTransitive(n, w, r2.w, r3.w);
      }
    }
  }

  lemma PublishMade(cfg: Config, w: World, n: Names, roles: seq<string>, tka: string)
    requires WellFormed(cfg, n) && TokenRoles(roles) && FreshNames(cfg, w) && Readable(cfg, n, w)
    ensures OnlyMade(n, w, Publish(cfg, w, n, roles, tka).w)
  {
    var r := ConfigMapStep(cfg, w, n, roles, tka);
    ConfigMapStepEffect(cfg, w, n, roles, tka);
    ConfigMapStepLater(cfg, w, n, roles, tka);
    if ValuesRotated(cfg, w, r, n, roles, tka) {
      MintedIsMade(cfg, n, w, r.w, roles);
    } else {
      NothingMade(n, w, r.w);
    }
    if r.Ok? {
      ConfigMapStepKeeps(cfg, w, n, roles, tka, w.now);
      InjectAccounting(cfg, r.w, n, "");
      InjectLater(cfg, r.w, n);
      NothingMade(n, r.w, Inject(cfg, r.w, n).w);
      MadeTransitive(n, w, r.w, Inject(cfg, r.w, n).w);
    }
  }

  /** Wherever a live reconcile stops, the tokens it has created are well made. */
  lemma RegisterMade(cfg: Config, w: World, n: Names, c: Cluster, roles: seq<string>)
    requires WellFormed(cfg, n) && TokenRoles(roles) && FreshNames(cfg, w) && Readable(cfg, n, w)
    requires n.cluster in w.clusters && w.clusters[n.cluster] == c
    ensures OnlyMade(n, w, Register(cfg, w, n, c, roles).w)
  {
    var p := Prepare(cfg, w, n, c);
    PrepareMade(cfg, w, n, c);
    PrepareLater(cfg, w, n, c);
    PrepareReaches(cfg, w, n, c);
    if p.Ok? {
      PublishMade(cfg, p.w, n, roles, p.value);
      PublishLater(cfg, p.w, n, roles, p.value);
      MadeTransitive(n, w, p.w, Publish(cfg, p.w, n, roles, p.value).w);
    }
  }
}
