/** What each step of a live reconcile leaves behind, on success and wherever it fails. */
module Steps {
  import opened Prelude
  import opened Roles
  import opened Keys
  import opened Values
  import opened Documents
  import opened RoundTrip
  import opened Layouts
  import opened Tokens
  import opened References
  import opened Environment
  import opened Machine
  import opened Effects

  /** Inputs the operator can handle: values that need no escaping, and a generator that does not repeat itself. */
  ghost predicate WellFormed(cfg: Config, n: Names) {
    && Safe(cfg.proxyAddr) && Safe(cfg.teleportVersion) && GoodGenerator(cfg)
    && Safe(n.register) && n.register != ""
  }

  // --- The stored Secret and ConfigMap -----------------------------------------------------------

  ghost predicate SecretReadable(cfg: Config, issued: nat, n: Names, secrets: map<Key, Data>) {
    n.secret in secrets ==>
      JOIN_TOKEN in secrets[n.secret] && NotFuture(cfg, issued, secrets[n.secret][JOIN_TOKEN])
  }

  /** The document is readable and names this cluster. */
  ghost predicate DataReadable(cfg: Config, issued: nat, n: Names, data: Data) {
    && GetTokenFromConfigMap(data).Some?
    && NotFuture(cfg, issued, GetTokenFromConfigMap(data).value)
    && RegisterNameFromConfigMap(data) == Some(n.register)
  }

  ghost predicate ValuesReadable(cfg: Config, issued: nat, n: Names, configMaps: map<Key, Data>) {
    n.configMap in configMaps ==> DataReadable(cfg, issued, n, configMaps[n.configMap])
  }

  ghost predicate Readable(cfg: Config, n: Names, w: World) {
    SecretReadable(cfg, w.issued, n, w.secrets) && ValuesReadable(cfg, w.issued, n, w.configMaps)
  }

  /** The stored node token is valid at `now`. */
  predicate SecretValid(n: Names, secrets: map<Key, Data>, tokens: seq<Token>, now: int) {
    && n.secret in secrets && JOIN_TOKEN in secrets[n.secret]
    && ValidAt(tokens, n.register, secrets[n.secret][JOIN_TOKEN], [ROLE_NODE], now)
  }

  /** The stored document is byte for byte the rendering of a token valid at `now`. */
  predicate DataCurrent(cfg: Config, n: Names, data: Data, tokens: seq<Token>, roles: seq<string>, tka: string, now: int) {
    && GetTokenFromConfigMap(data).Some?
    && VALUES in data
    && var token := GetTokenFromConfigMap(data).value;
       && data[VALUES] == RenderConfigMapValues(cfg, n.register, token, roles, tka)
       && ValidAt(tokens, n.register, token, roles, now)
  }

  predicate ValuesCurrent(cfg: Config, n: Names, configMaps: map<Key, Data>, tokens: seq<Token>, roles: seq<string>,
                          tka: string, now: int)
  {
    n.configMap in configMaps && DataCurrent(cfg, n, configMaps[n.configMap], tokens, roles, tka, now)
  }

  predicate TokenRoles(roles: seq<string>) {
    IsRoleList(roles) && Distinct(roles)
  }

  lemma RolesForAreTokenRoles(enabled: bool)
    ensures TokenRoles(RolesFor(enabled)) && TokenRoles([ROLE_NODE])
  {
  }

  // --- Token checks and generation -----------------------------------------------------------------

  lemma ValidEarlier(tokens: seq<Token>, registerName: string, name: string, roles: seq<string>, now: int, later: int)
    requires ValidAt(tokens, registerName, name, roles, later) && now <= later
    ensures ValidAt(tokens, registerName, name, roles, now)
  {
  }

  /** The check on a joined role string says whether the token is valid at the instant of the call. */
  lemma CheckTokenExactly(w: World, registerName: string, token: string, roles: seq<string>)
    requires TokenRoles(roles) && UniqueNames(w.tokens)
    ensures var r := CheckToken(w, registerName, token, RolesToString(roles));
            && r.w == Call(w).w && (r.Ok? <==> w.script != [])
            && (r.Ok? ==> (r.value <==> ValidAt(w.tokens, registerName, token, roles, r.w.now)))
  {
    ParseOfRolesToString(roles);
    if w.script != [] {
      IsTokenValidExactly(w.tokens, registerName, token, roles, Call(w).w.now);
    }
  }

  /** One token has been drawn and stored since `w`, no earlier than `w`. */
  ghost predicate Minted(cfg: Config, w: World, v: World, registerName: string, roles: seq<string>) {
    && v.issued == w.issued + 1
    && exists t0 :: w.now <= t0 <= v.now
                    && v.tokens == w.tokens + [NewToken(cfg.generate(w.issued), registerName, roles, t0)]
  }

  lemma MintedIsValid(cfg: Config, w: World, v: World, registerName: string, roles: seq<string>)
    requires Minted(cfg, w, v, registerName, roles) && TokenRoles(roles) && UniqueNames(v.tokens)
    ensures ValidAt(v.tokens, registerName, cfg.generate(w.issued), roles, w.now)
  {
    var t0 :| w.now <= t0 <= v.now
              && v.tokens == w.tokens + [NewToken(cfg.generate(w.issued), registerName, roles, t0)];
    var t := NewToken(cfg.generate(w.issued), registerName, roles, t0);
    assert v.tokens[|w.tokens|] == t;
    NewTokenValidity(v.tokens, t.name, registerName, roles, t0, w.now);
  }

  /** Drawing a token: on success it is minted under the next name, on failure only the name is used up. */
  lemma GenerateEffect(cfg: Config, w: World, n: Names, roles: seq<string>)
    requires GoodGenerator(cfg) && FreshNames(cfg, w)
    ensures var t := GenerateToken(cfg, w, n.register, roles);
            && SameObjects(w, t.w) && Later(w, t.w) && t.w.writes == w.writes && FreshNames(cfg, t.w)
            && (t.Fail? ==> t.w.tokens == w.tokens)
            && (t.Ok? ==> t.value == cfg.generate(w.issued) && Minted(cfg, w, t.w, n.register, roles))
  {
    GenerateFrame(cfg, w, n.register, roles);
    GenerateTokens(cfg, w, n, roles);
  }

  lemma MintedStays(cfg: Config, w: World, v: World, v1: World, registerName: string, roles: seq<string>)
    requires Minted(cfg, w, v, registerName, roles) && SameTokens(v, v1) && v.now <= v1.now
    ensures Minted(cfg, w, v1, registerName, roles)
  {
  }

  // --- The Secret ----------------------------------------------------------------------------------

  /** Everything but Secrets and tokens is as it was. */
  predicate SecretStepFrame(w: World, v: World) {
    && v.clusters == w.clusters && v.appsEnabled == w.appsEnabled && v.configMaps == w.configMaps
    && v.helmReleases == w.helmReleases && v.apps == w.apps
  }

  ghost predicate SecretKept(w: World, r: Run<()>, n: Names) {
    && r.w.secrets == w.secrets && r.w.tokens == w.tokens
    && w.issued <= r.w.issued
    && r.w.writes == w.writes
    && (r.Ok? ==> r.w.issued == w.issued && SecretValid(n, w.secrets, w.tokens, w.now))
  }

  ghost predicate SecretRotated(cfg: Config, w: World, r: Run<()>, n: Names) {
    && Minted(cfg, w, r.w, n.register, [ROLE_NODE])
    && r.w.secrets == (if r.Ok? then w.secrets[n.secret := map[JOIN_TOKEN := cfg.generate(w.issued)]] else w.secrets)
  }

  /** Storing Data under `k`: created if absent, replaced if present. */
  lemma PutSecret(w: World, k: Key, data: Data)
    ensures var r := if k in w.secrets then UpdateSecret(w, k, data) else CreateSecret(w, k, data);
            && SecretStepFrame(w, r.w) && SameTokens(w, r.w) && Later(w, r.w)
            && r.w.secrets == (if r.Ok? then w.secrets[k := data] else w.secrets)
  {
  }

  lemma NewSecretEffect(cfg: Config, w: World, n: Names, t: Run<string>, r: Run<()>)
    requires GoodGenerator(cfg) && FreshNames(cfg, w)
    requires t == GenerateToken(cfg, w, n.register, [ROLE_NODE])
    requires match t
             case Fail(v) => r == Fail(v)
             case Ok(v, token) =>
               var data := map[JOIN_TOKEN := token];
               if n.secret in w.secrets then r == UpdateSecret(v, n.secret, data) else r == CreateSecret(v, n.secret, data)
    ensures SecretStepFrame(w, r.w)
    ensures (r.Fail? && SecretKept(w, r, n)) || SecretRotated(cfg, w, r, n)
  {
    GenerateEffect(cfg, w, n, [ROLE_NODE]);
    if t.Ok? {
      PutSecret(t.w, n.secret, map[JOIN_TOKEN := t.value]);
      MintedStays(cfg, w, t.w, r.w, n.register, [ROLE_NODE]);
    }
  }

  /** `v` differs from `w` in nothing but time and the script. */
  predicate OnlyLater(w: World, v: World) {
    SameObjects(w, v) && SameTokens(w, v) && v.writes == w.writes && Later(w, v)
  }

  lemma CallOnlyLater(w: World)
    ensures OnlyLater(w, Call(w).w)
  {
  }

  lemma SecretEffectLater(cfg: Config, w: World, w1: World, r: Run<()>, n: Names)
    requires OnlyLater(w, w1) && SecretStepFrame(w1, r.w)
    requires (r.Fail? && SecretKept(w1, r, n)) || SecretRotated(cfg, w1, r, n)
    ensures SecretStepFrame(w, r.w)
    ensures (r.Fail? && SecretKept(w, r, n)) || SecretRotated(cfg, w, r, n)
  {
  }

  /** A step on the Secret either keeps it, and then its token is valid if the step succeeds, or draws one node
      token, and then stores it if the step succeeds. */
  lemma SecretStepEffect(cfg: Config, w: World, n: Names)
    requires GoodGenerator(cfg) && FreshNames(cfg, w)
    ensures var r := SecretStep(cfg, w, n);
            SecretStepFrame(w, r.w) && (SecretKept(w, r, n) || SecretRotated(cfg, w, r, n))
  {
    var r, w1 := SecretStep(cfg, w, n), Call(w).w;
    CallOnlyLater(w);
    if Call(w).Ok? {
      if n.secret !in w.secrets {
        NewSecretEffect(cfg, w1, n, GenerateToken(cfg, w1, n.register, [ROLE_NODE]), r);
        SecretEffectLater(cfg, w, w1, r, n);
      } else if JOIN_TOKEN in w.secrets[n.secret] {
        var token := w.secrets[n.secret][JOIN_TOKEN];
        RolesForAreTokenRoles(false);
        CheckTokenExactly(w1, n.register, token, [ROLE_NODE]);
        var c := CheckToken(w1, n.register, token, ROLE_NODE);
        CallOnlyLater(w1);
        assert OnlyLater(w, c.w);
        if c.Ok? && c.value {
          ValidEarlier(w.tokens, n.register, token, [ROLE_NODE], w.now, c.w.now);
        } else if c.Ok? {
          NewSecretEffect(cfg, c.w, n, GenerateToken(cfg, c.w, n.register, [ROLE_NODE]), r);
          SecretEffectLater(cfg, w, c.w, r, n);
        }
      }
    }
  }

  // --- The ConfigMap -------------------------------------------------------------------------------

  predicate ConfigMapStepFrame(w: World, v: World) {
    && v.clusters == w.clusters && v.appsEnabled == w.appsEnabled && v.secrets == w.secrets
    && v.helmReleases == w.helmReleases && v.apps == w.apps
  }

  lemma PutConfigMap(w: World, k: Key, data: Data)
    ensures var r := if k in w.configMaps then UpdateConfigMap(w, k, data) else CreateConfigMap(w, k, data);
            && ConfigMapStepFrame(w, r.w) && SameTokens(w, r.w) && Later(w, r.w)
            && r.w.configMaps == (if r.Ok? then w.configMaps[k := data] else w.configMaps)
            && (r.Fail? ==> r.w.writes == w.writes)
  {
  }

  /** `data` holds the rendering of `token` and reads back as such. */
  predicate DataRendered(cfg: Config, n: Names, data: Data, token: string, roles: seq<string>, tka: string) {
    && VALUES in data && data[VALUES] == RenderConfigMapValues(cfg, n.register, token, roles, tka)
    && GetTokenFromConfigMap(data) == Some(token)
    && RegisterNameFromConfigMap(data) == Some(n.register)
  }

  lemma RenderedReadsBack(cfg: Config, n: Names, data: Data, token: string, roles: seq<string>, tka: string)
    requires WellFormed(cfg, n) && Safe(token) && TokenRoles(roles)
    requires VALUES in data && data[VALUES] == RenderConfigMapValues(cfg, n.register, token, roles, tka)
    ensures DataRendered(cfg, n, data, token, roles, tka)
  {
    SafeJoin(roles);
    GettersOfRender(cfg, n.register, token, roles, tka, data);
  }

  /** The register name read from the document equals the computed one, so the write closes the drift. */
  lemma WriteValuesEffect(cfg: Config, w: World, n: Names, token: string, roles: seq<string>, tka: string)
    requires WellFormed(cfg, n) && Safe(token) && TokenRoles(roles)
    requires n.configMap in w.configMaps
    requires RegisterNameFromConfigMap(w.configMaps[n.configMap]) == Some(n.register)
    ensures var data := w.configMaps[n.configMap];
            var r := WriteValues(cfg, w, n, data, token, roles, tka);
            && ConfigMapStepFrame(w, r.w) && SameTokens(w, r.w) && Later(w, r.w)
            && (r.Fail? ==> r.w.configMaps == w.configMaps && r.w.writes == w.writes)
            && (r.Ok? && DataRendered(cfg, n, data, token, roles, tka) ==> r.w == w)
            && (r.Ok? && !DataRendered(cfg, n, data, token, roles, tka) ==>
                  var d := data[VALUES := RenderConfigMapValues(cfg, n.register, token, roles, tka)];
                  DataRendered(cfg, n, d, token, roles, tka) && r.w.configMaps == w.configMaps[n.configMap := d])
  {
    var data := w.configMaps[n.configMap];
    var desired := RenderConfigMapValues(cfg, n.register, token, roles, tka);
    RenderedReadsBack(cfg, n, data[VALUES := desired], token, roles, tka);
    PutConfigMap(w, n.configMap, data[VALUES := desired]);
    if VALUES in data && data[VALUES] == desired {
      RenderedReadsBack(cfg, n, data, token, roles, tka);
    }
  }

  ghost predicate ValuesKept(cfg: Config, w: World, r: Run<()>, n: Names, roles: seq<string>, tka: string) {
    && r.w.configMaps == w.configMaps && r.w.tokens == w.tokens
    && w.issued <= r.w.issued
    && r.w.writes == w.writes
    && (r.Ok? ==> r.w.issued == w.issued && ValuesCurrent(cfg, n, w.configMaps, w.tokens, roles, tka, w.now))
  }

  /** Same token, new document. */
  ghost predicate ValuesRealigned(cfg: Config, w: World, r: Run<()>, n: Names, roles: seq<string>, tka: string) {
    && r.Ok? && SameTokens(w, r.w)
    && n.configMap in w.configMaps && n.configMap in r.w.configMaps
    && GetTokenFromConfigMap(w.configMaps[n.configMap]).Some?
    && var token := GetTokenFromConfigMap(w.configMaps[n.configMap]).value;
       && ValidAt(w.tokens, n.register, token, roles, w.now)
       && !DataRendered(cfg, n, w.configMaps[n.configMap], token, roles, tka)
       && DataRendered(cfg, n, r.w.configMaps[n.configMap], token, roles, tka)
       && r.w.configMaps == w.configMaps[n.configMap := r.w.configMaps[n.configMap]]
  }

  /** A new token, and on success a document that carries it. */
  ghost predicate ValuesRotated(cfg: Config, w: World, r: Run<()>, n: Names, roles: seq<string>, tka: string) {
    && Minted(cfg, w, r.w, n.register, roles)
    && (r.Fail? ==> r.w.configMaps == w.configMaps)
    && (r.Ok? ==> n.configMap in r.w.configMaps
                  && DataRendered(cfg, n, r.w.configMaps[n.configMap], cfg.generate(w.issued), roles, tka)
                  && r.w.configMaps == w.configMaps[n.configMap := r.w.configMaps[n.configMap]])
  }

  ghost predicate ValuesEffect(cfg: Config, w: World, r: Run<()>, n: Names, roles: seq<string>, tka: string) {
    && ConfigMapStepFrame(w, r.w)
    && (ValuesKept(cfg, w, r, n, roles, tka) || ValuesRealigned(cfg, w, r, n, roles, tka)
        || ValuesRotated(cfg, w, r, n, roles, tka))
  }

  lemma ValuesEffectLater(cfg: Config, w: World, w1: World, r: Run<()>, n: Names, roles: seq<string>, tka: string)
    requires OnlyLater(w, w1) && ValuesEffect(cfg, w1, r, n, roles, tka)
    ensures ValuesEffect(cfg, w, r, n, roles, tka)
  {
    if ValuesKept(cfg, w1, r, n, roles, tka) && r.Ok? {
      var data := w.configMaps[n.configMap];
      ValidEarlier(w.tokens, n.register, GetTokenFromConfigMap(data).value, roles, w.now, w1.now);
    } else if ValuesRealigned(cfg, w1, r, n, roles, tka) {
      ValidEarlier(w.tokens, n.register, GetTokenFromConfigMap(w.configMaps[n.configMap]).value, roles, w.now, w1.now);
    }
  }

  /** The valid arm: the token stays, the document is rewritten on drift. */
  lemma AlignEffect(cfg: Config, w: World, n: Names, roles: seq<string>, tka: string)
    requires WellFormed(cfg, n) && TokenRoles(roles)
    requires n.configMap in w.configMaps && DataReadable(cfg, w.issued, n, w.configMaps[n.configMap])
    requires var token := GetTokenFromConfigMap(w.configMaps[n.configMap]).value;
             ValidAt(w.tokens, n.register, token, roles, w.now)
    ensures var data := w.configMaps[n.configMap];
            ValuesEffect(cfg, w, WriteValues(cfg, w, n, data, GetTokenFromConfigMap(data).value, roles, tka), n, roles, tka)
  {
    var data := w.configMaps[n.configMap];
    ParsedStringsSafe(data);
    WriteValuesEffect(cfg, w, n, GetTokenFromConfigMap(data).value, roles, tka);
  }

  lemma NextNameIsNotRendered(cfg: Config, issued: nat, n: Names, data: Data, roles: seq<string>, tka: string)
    requires DataReadable(cfg, issued, n, data)
    ensures !DataRendered(cfg, n, data, cfg.generate(issued), roles, tka)
  {
  }

  /** The invalid arm draws a token, and then always writes: a fresh name cannot render the stored bytes. */
  lemma ReplaceEffect(cfg: Config, w: World, n: Names, roles: seq<string>, tka: string, r: Run<()>)
    requires WellFormed(cfg, n) && TokenRoles(roles) && FreshNames(cfg, w)
    requires n.configMap in w.configMaps && DataReadable(cfg, w.issued, n, w.configMaps[n.configMap])
    requires r == match GenerateToken(cfg, w, n.register, roles)
                  case Fail(v) => Fail(v)
                  case Ok(v, token) => WriteValues(cfg, v, n, w.configMaps[n.configMap], token, roles, tka)
    ensures ValuesEffect(cfg, w, r, n, roles, tka)
  {
    GenerateEffect(cfg, w, n, roles);
    var t := GenerateToken(cfg, w, n.register, roles);
    if t.Ok? {
      WriteValuesEffect(cfg, t.w, n, t.value, roles, tka);
      NextNameIsNotRendered(cfg, w.issued, n, w.configMaps[n.configMap], roles, tka);
      MintedStays(cfg, w, t.w, r.w, n.register, roles);
    }
  }

  lemma RotateEffect(cfg: Config, w: World, n: Names, roles: seq<string>, tka: string)
    requires WellFormed(cfg, n) && TokenRoles(roles) && FreshNames(cfg, w)
    requires n.configMap in w.configMaps && DataReadable(cfg, w.issued, n, w.configMaps[n.configMap])
    ensures var data := w.configMaps[n.configMap];
            ValuesEffect(cfg, w, Rotate(cfg, w, n, data, GetTokenFromConfigMap(data).value, roles, tka), n, roles, tka)
  {
    var data := w.configMaps[n.configMap];
    var token := GetTokenFromConfigMap(data).value;
    var r := Rotate(cfg, w, n, data, token, roles, tka);
    CheckTokenExactly(w, n.register, token, roles);
    CallOnlyLater(w);
    var c := CheckToken(w, n.register, token, RolesToString(roles));
    if c.Ok? {
      if c.value {
        AlignEffect(cfg, c.w, n, roles, tka);
      } else {
        ReplaceEffect(cfg, c.w, n, roles, tka, r);
      }
      ValuesEffectLater(cfg, w, c.w, r, n, roles, tka);
    }
  }

  lemma CreatedIsRotated(cfg: Config, w: World, v: World, r: Run<()>, n: Names, data: Data, roles: seq<string>, tka: string)
    requires Minted(cfg, w, v, n.register, roles) && SameTokens(v, r.w) && v.now <= r.w.now
    requires ConfigMapStepFrame(w, r.w) && DataRendered(cfg, n, data, cfg.generate(w.issued), roles, tka)
    requires r.w.configMaps == if r.Ok? then w.configMaps[n.configMap := data] else w.configMaps
    ensures ValuesEffect(cfg, w, r, n, roles, tka)
  {
    MintedStays(cfg, w, v, r.w, n.register, roles);
    assert r.Ok? ==> r.w.configMaps[n.configMap] == data;
    assert ValuesRotated(cfg, w, r, n, roles, tka);
  }

  lemma CreateEffect(cfg: Config, w: World, n: Names, roles: seq<string>, tka: string, r: Run<()>)
    requires WellFormed(cfg, n) && TokenRoles(roles) && FreshNames(cfg, w)
    requires n.configMap !in w.configMaps
    requires r == match GenerateToken(cfg, w, n.register, roles)
                  case Fail(v) => Fail(v)
                  case Ok(v, token) => CreateValues(cfg, v, n, token, roles, tka)
    ensures ValuesEffect(cfg, w, r, n, roles, tka)
  {
    GenerateEffect(cfg, w, n, roles);
    var t := GenerateToken(cfg, w, n.register, roles);
    if t.Ok? {
      var d := map[VALUES := RenderConfigMapValues(cfg, n.register, t.value, roles, tka)];
      RenderedReadsBack(cfg, n, d, t.value, roles, tka);
      CreateValuesFrame(cfg, t.w, n, t.value, roles, tka);
      CreatedIsRotated(cfg, w, t.w, r, n, d, roles, tka);
    }
  }

  /** A ConfigMap that has appeared meanwhile is left alone, and that is no error. */
  lemma CreateValuesLeavesAlone(cfg: Config, w: World, n: Names, token: string, roles: seq<string>, tka: string)
    requires n.configMap in w.configMaps && w.script != []
    ensures var r := CreateValues(cfg, w, n, token, roles, tka);
            r.Ok? && OnlyLater(w, r.w)
  {
    CallOnlyLater(w);
  }

  lemma CreateValuesFrame(cfg: Config, w: World, n: Names, token: string, roles: seq<string>, tka: string)
    requires n.configMap !in w.configMaps
    ensures var r := CreateValues(cfg, w, n, token, roles, tka);
            && ConfigMapStepFrame(w, r.w) && SameTokens(w, r.w) && w.now <= r.w.now
            && (r.Fail? ==> r.w.configMaps == w.configMaps)
            && (r.Ok? ==> r.w.configMaps == w.configMaps[n.configMap :=
                  map[VALUES := RenderConfigMapValues(cfg, n.register, token, roles, tka)]])
  {
    CallOnlyLater(w);
    PutConfigMap(Call(w).w, n.configMap, map[VALUES := RenderConfigMapValues(cfg, n.register, token, roles, tka)]);
  }

  /** A step on the ConfigMap keeps it, realigns it with the same token, or rotates the token; on success the
      document is current. */
  lemma ConfigMapStepEffect(cfg: Config, w: World, n: Names, roles: seq<string>, tka: string)
    requires WellFormed(cfg, n) && TokenRoles(roles) && FreshNames(cfg, w)
    requires ValuesReadable(cfg, w.issued, n, w.configMaps)
    ensures ValuesEffect(cfg, w, ConfigMapStep(cfg, w, n, roles, tka), n, roles, tka)
  {
    var r, w1 := ConfigMapStep(cfg, w, n, roles, tka), Call(w).w;
    CallOnlyLater(w);
    if Call(w).Ok? {
      if n.configMap in w.configMaps {
        RotateEffect(cfg, w1, n, roles, tka);
      } else {
        CreateEffect(cfg, w1, n, roles, tka, r);
      }
      ValuesEffectLater(cfg, w, w1, r, n, roles, tka);
    }
  }
}
