/** Which tokens a live reconcile creates, and where they end up. */
module Accounting {
  import opened Prelude
  import opened Roles
  import opened Keys
  import opened Documents
  import opened Tokens
  import opened Environment
  import opened Machine
  import opened Effects
  import opened Steps
  import opened Injection
  import opened Registration

  predicate SecretHolds(n: Names, w: World, name: string) {
    n.secret in w.secrets && JOIN_TOKEN in w.secrets[n.secret] && w.secrets[n.secret][JOIN_TOKEN] == name
  }

  predicate ConfigMapHolds(n: Names, w: World, name: string) {
    n.configMap in w.configMaps && GetTokenFromConfigMap(w.configMaps[n.configMap]) == Some(name)
  }

  /** The tokens of `v` that were not in `w`. */
  function NewTokens(w: World, v: World): seq<Token>
    requires w.tokens <= v.tokens
  {
    v.tokens[|w.tokens|..]
  }

  /** A token that a step may have created: labelled, and under a name drawn during the step. */
  ghost predicate DrawnIn(cfg: Config, n: Names, w: World, v: World, t: Token) {
    && ClusterLabel(t) == n.register
    && exists i: nat :: w.issued <= i < v.issued && t.name == cfg.generate(i)
  }

  lemma MintedTokens(cfg: Config, n: Names, w: World, v: World, roles: seq<string>)
    requires Minted(cfg, w, v, n.register, roles)
    ensures w.tokens <= v.tokens
    ensures |NewTokens(w, v)| == 1 && NewTokens(w, v)[0].name == cfg.generate(w.issued)
    ensures DrawnIn(cfg, n, w, v, NewTokens(w, v)[0])
  {
    var t0 :| w.now <= t0 <= v.now
              && v.tokens == w.tokens + [NewToken(cfg.generate(w.issued), n.register, roles, t0)];
  }

  /** A name that is still to come is not in a readable ConfigMap. */
  lemma ComingNameIsNotHeld(cfg: Config, n: Names, w: World, i: nat)
    requires ValuesReadable(cfg, w.issued, n, w.configMaps) && w.issued <= i
    ensures !ConfigMapHolds(n, w, cfg.generate(i))
  {
    if n.configMap in w.configMaps {
      var data := w.configMaps[n.configMap];
      assert NotFuture(cfg, w.issued, GetTokenFromConfigMap(data).value);
    }
  }

  /** The node step: at most one token, in the Secret on success. */
  lemma SecretStepAccounting(cfg: Config, w: World, n: Names)
    requires WellFormed(cfg, n) && FreshNames(cfg, w)
    ensures var r := SecretStep(cfg, w, n);
            && w.tokens <= r.w.tokens && w.issued <= r.w.issued && |NewTokens(w, r.w)| <= 1
            && (forall t :: t in NewTokens(w, r.w) ==>
                  DrawnIn(cfg, n, w, r.w, t) && (r.Ok? ==> SecretHolds(n, r.w, t.name)))
  {
    SecretStepEffect(cfg, w, n);
    var r := SecretStep(cfg, w, n);
    if SecretRotated(cfg, w, r, n) {
      MintedTokens(cfg, n, w, r.w, [ROLE_NODE]);
    }
  }

  /** At most one token, in the ConfigMap on success; no other name got there; and an unchanged ConfigMap means
      that no token was drawn and the stored one is current. */
  ghost predicate ConfigMapAccount(cfg: Config, n: Names, w: World, r: Run<()>, roles: seq<string>, tka: string) {
    && w.tokens <= r.w.tokens && w.issued <= r.w.issued && |NewTokens(w, r.w)| <= 1
    && (forall t :: t in NewTokens(w, r.w) ==>
          DrawnIn(cfg, n, w, r.w, t) && (r.Ok? ==> ConfigMapHolds(n, r.w, t.name)))
    && (r.Ok? && r.w.configMaps == w.configMaps ==>
          NewTokens(w, r.w) == [] && ValuesCurrent(cfg, n, w.configMaps, w.tokens, roles, tka, w.now))
    && (forall name :: ConfigMapHolds(n, r.w, name) ==> ConfigMapHolds(n, w, name) || name == cfg.generate(w.issued))
  }

  lemma RealignedAccount(cfg: Config, w: World, r: Run<()>, n: Names, roles: seq<string>, tka: string)
    requires ValuesRealigned(cfg, w, r, n, roles, tka)
    ensures ConfigMapAccount(cfg, n, w, r, roles, tka)
  {
    assert NewTokens(w, r.w) == [] && r.w.configMaps != w.configMaps;
    assert GetTokenFromConfigMap(r.w.configMaps[n.configMap]) == GetTokenFromConfigMap(w.configMaps[n.configMap]);
  }

  lemma RotatedAccount(cfg: Config, w: World, r: Run<()>, n: Names, roles: seq<string>, tka: string)
    requires ValuesReadable(cfg, w.issued, n, w.configMaps) && ValuesRotated(cfg, w, r, n, roles, tka)
    ensures ConfigMapAccount(cfg, n, w, r, roles, tka)
  {
    MintedTokens(cfg, n, w, r.w, roles);
    ComingNameIsNotHeld(cfg, n, w, w.issued);
    assert r.Ok? ==> ConfigMapHolds(n, r.w, cfg.generate(w.issued));
  }

  /** The kube step. A new token always changes the stored bytes, so the branch that leaves them alone is reached
      only with a valid token. */
  lemma ConfigMapStepAccounting(cfg: Config, w: World, n: Names, roles: seq<string>, tka: string)
    requires WellFormed(cfg, n) && TokenRoles(roles) && FreshNames(cfg, w)
    requires ValuesReadable(cfg, w.issued, n, w.configMaps)
    ensures ConfigMapAccount(cfg, n, w, ConfigMapStep(cfg, w, n, roles, tka), roles, tka)
  {
    ConfigMapStepEffect(cfg, w, n, roles, tka);
    var r := ConfigMapStep(cfg, w, n, roles, tka);
    if ValuesRotated(cfg, w, r, n, roles, tka) {
      RotatedAccount(cfg, w, r, n, roles, tka);
    } else if ValuesRealigned(cfg, w, r, n, roles, tka) {
      RealignedAccount(cfg, w, r, n, roles, tka);
    }
  }

  lemma InjectAccounting(cfg: Config, w: World, n: Names, name: string)
    requires n.configMap in w.configMaps
    ensures var r := Inject(cfg, w, n);
            SameTokens(w, r.w) && r.w.secrets == w.secrets
            && (ConfigMapHolds(n, r.w, name) <==> ConfigMapHolds(n, w, name))
  {
    EnsureReferenceKeeps(w, n.agent, n.configMap.name, n.agent, n.configMap.name);
    var r := EnsureReference(w, n.agent, n.configMap.name);
    if r.Ok? {
      BotStepKeeps(cfg, r.w, n);
    }
  }

  ghost predicate PrepareAccount(cfg: Config, n: Names, w: World, r: Run<string>) {
    && w.tokens <= r.w.tokens && w.issued <= r.w.issued && |NewTokens(w, r.w)| <= 1
    && r.w.configMaps == w.configMaps
    && forall t :: t in NewTokens(w, r.w) ==> DrawnIn(cfg, n, w, r.w, t) && (r.Ok? ==> SecretHolds(n, r.w, t.name))
  }

  lemma PrepareAccounting(cfg: Config, w: World, n: Names, c: Cluster)
    requires WellFormed(cfg, n) && FreshNames(cfg, w)
    requires n.cluster in w.clusters && w.clusters[n.cluster] == c
    ensures PrepareAccount(cfg, n, w, Prepare(cfg, w, n, c))
  {
    AddFinalizerEffect(w, n.cluster, c);
    var r1 := AddFinalizer(w, n.cluster, c);
    if r1.Ok? {
      SecretStepAccounting(cfg, r1.w, n);
      SecretStepEffect(cfg, r1.w, n);
      var r2 := SecretStep(cfg, r1.w, n);
      if r2.Ok? {
        VersionEffect(r2.w, n.agent);
      }
    }
  }

  /** At most two tokens were created, all with the cluster's label and names never used before. On success each
      is in exactly one of the Secret and the ConfigMap; on failure at most the last one is in neither. */
  ghost predicate RegisterAccount(cfg: Config, n: Names, w: World, r: Run<int>) {
    && w.tokens <= r.w.tokens
    && var drawn := NewTokens(w, r.w);
       && |drawn| <= 2
       && (forall t :: t in drawn ==> DrawnIn(cfg, n, w, r.w, t))
       && (r.Ok? ==> forall t :: t in drawn ==> SecretHolds(n, r.w, t.name) != ConfigMapHolds(n, r.w, t.name))
       && (forall i :: 0 <= i < |drawn| - 1 ==> SecretHolds(n, r.w, drawn[i].name))
  }

  /** The tokens of a live reconcile, wherever it stops. */
  lemma RegisterAccounting(cfg: Config, w: World, n: Names, c: Cluster, roles: seq<string>)
    requires WellFormed(cfg, n) && TokenRoles(roles) && FreshNames(cfg, w) && Readable(cfg, n, w)
    requires n.cluster in w.clusters && w.clusters[n.cluster] == c
    ensures RegisterAccount(cfg, n, w, Register(cfg, w, n, c, roles))
  {
    PrepareAccounting(cfg, w, n, c);
    PrepareReaches(cfg, w, n, c);
    var p := Prepare(cfg, w, n, c);
    if p.Ok? {
      var q := ConfigMapStep(cfg, p.w, n, roles, p.value);
      ConfigMapStepAccounting(cfg, p.w, n, roles, p.value);
      ConfigMapStepKeeps(cfg, p.w, n, roles, p.value, p.w.now);
      var r := Register(cfg, w, n, c, roles);
      ConfigMapStepEffect(cfg, p.w, n, roles, p.value);
      if q.Ok? {
        forall name ensures ConfigMapHolds(n, r.w, name) <==> ConfigMapHolds(n, q.w, name) {
          InjectAccounting(cfg, q.w, n, name);
        }
        InjectAccounting(cfg, q.w, n, "");
      }
      Combine(cfg, n, w, p, q, r);
      forall t | t in NewTokens(w, r.w) ensures !(SecretHolds(n, r.w, t.name) && ConfigMapHolds(n, r.w, t.name)) {
        var i: nat :| w.issued <= i < r.w.issued && t.name == cfg.generate(i);
        NotInBoth(cfg, n, w, p.w, r.w, i);
      }
    }
  }

  /** Tokens of the node step followed by tokens of the kube step. */
  lemma Combine(cfg: Config, n: Names, w: World, p: Run<string>, q: Run<()>, r: Run<int>)
    requires PrepareAccount(cfg, n, w, p) && p.Ok?
    requires p.w.tokens <= q.w.tokens && p.w.issued <= q.w.issued && |NewTokens(p.w, q.w)| <= 1
    requires forall t :: t in NewTokens(p.w, q.w) ==>
               DrawnIn(cfg, n, p.w, q.w, t) && (q.Ok? ==> ConfigMapHolds(n, q.w, t.name))
    requires SameTokens(q.w, r.w) && r.w.secrets == p.w.secrets && (r.Ok? ==> q.Ok?)
    requires forall name :: ConfigMapHolds(n, r.w, name) <==> ConfigMapHolds(n, q.w, name)
    ensures w.tokens <= r.w.tokens
    ensures NewTokens(w, r.w) == NewTokens(w, p.w) + NewTokens(p.w, q.w)
    ensures forall t :: t in NewTokens(w, r.w) ==> DrawnIn(cfg, n, w, r.w, t)
    ensures r.Ok? ==> forall t :: t in NewTokens(w, r.w) ==> SecretHolds(n, r.w, t.name) || ConfigMapHolds(n, r.w, t.name)
    ensures forall i :: 0 <= i < |NewTokens(w, r.w)| - 1 ==> SecretHolds(n, r.w, NewTokens(w, r.w)[i].name)
  {
    var drawn := NewTokens(w, r.w);
    assert drawn == NewTokens(w, p.w) + NewTokens(p.w, q.w);
    forall t | t in drawn ensures DrawnIn(cfg, n, w, r.w, t) {
      if t in NewTokens(w, p.w) {
        assert DrawnIn(cfg, n, w, p.w, t);
      } else {
        assert DrawnIn(cfg, n, p.w, q.w, t);
      }
    }
  }

  /** A drawn name is never in both places: the Secret's was drawn before the ConfigMap's, or not at all. */
  lemma NotInBoth(cfg: Config, n: Names, w: World, p: World, q: World, i: nat)
    requires WellFormed(cfg, n) && Readable(cfg, n, w) && Readable(cfg, n, p)
    requires w.issued <= i && w.issued <= p.issued && p.configMaps == w.configMaps && q.secrets == p.secrets
    requires forall name :: ConfigMapHolds(n, q, name) ==> ConfigMapHolds(n, p, name) || name == cfg.generate(p.issued)
    ensures !(SecretHolds(n, q, cfg.generate(i)) && ConfigMapHolds(n, q, cfg.generate(i)))
  {
    ComingNameIsNotHeld(cfg, n, w, i);
    if ConfigMapHolds(n, q, cfg.generate(i)) {
      assert cfg.generate(i) == cfg.generate(p.issued);
    }
  }
}
