/** Drift detection and layout migration of the values document. */
module Layouts {
  import opened Prelude
  import opened Roles
  import opened Versions
  import opened Keys
  import opened Values
  import opened Yaml
  import opened Documents
  import opened RoundTrip

  /** The inputs of one rendering. */
  datatype Rendering = Rendering(cfg: Config, name: string, token: string, roles: seq<string>, tkaVersion: string) {
    predicate Valid() {
      SafeInputs(cfg, name, token, roles)
    }

    function Text(): string {
      RenderConfigMapValues(cfg, name, token, roles, tkaVersion)
    }

    predicate NestedOnly() {
      UsesNestedKubeAgentValues(cfg.semver, tkaVersion)
    }

    function Flat(): Fields {
      FlatFields(cfg, name, token, roles)
    }

    function Nested(): Fields {
      NestedFields(cfg, name, token, roles)
    }
  }

  lemma AsDocumentInjective(a: map<string, string>, b: map<string, string>)
    requires AsDocument(a) == AsDocument(b)
    ensures a == b
  {
    assert a.Keys == AsDocument(a).Keys == AsDocument(b).Keys == b.Keys;
    forall k | k in a ensures a[k] == b[k] {
      assert AsDocument(a)[k] == Scalar(a[k]) && AsDocument(b)[k] == Scalar(b[k]);
    }
  }

  lemma MeaningDetermines(r: Rendering, s: Rendering)
    requires Meaning(r.cfg, r.name, r.token, r.roles, r.tkaVersion) == Meaning(s.cfg, s.name, s.token, s.roles, s.tkaVersion)
    ensures r.NestedOnly() == s.NestedOnly() && r.Nested() == s.Nested()
    ensures !r.NestedOnly() ==> r.Flat() == s.Flat()
  {
    var m := Meaning(r.cfg, r.name, r.token, r.roles, r.tkaVersion);
    var n := Meaning(s.cfg, s.name, s.token, s.roles, s.tkaVersion);
    assert m[AGENT_KEY] == Block(FieldMap(r.Nested())) && n[AGENT_KEY] == Block(FieldMap(s.Nested()));
    FieldMapInjective(r.Nested(), s.Nested());
    KeysDiffer();
    FieldMapLookups(r.Flat());
    FieldMapLookups(s.Flat());
    assert FIELD_TOKEN in m <==> !r.NestedOnly();
    assert FIELD_TOKEN in n <==> !s.NestedOnly();
    if !r.NestedOnly() {
      var flatR, flatS := AsDocument(FieldMap(r.Flat())), AsDocument(FieldMap(s.Flat()));
      assert m - {AGENT_KEY} == flatR && n - {AGENT_KEY} == flatS;
      AsDocumentInjective(FieldMap(r.Flat()), FieldMap(s.Flat()));
      FieldMapInjective(r.Flat(), s.Flat());
    }
  }

  /** Comparing bytes is exact: two documents are equal if and only if they have the same layout and agree
      on every value that layout carries. In particular dual and nested-only documents never coincide. */
  lemma EqualBytes(r: Rendering, s: Rendering)
    requires r.Valid() && s.Valid()
    ensures r.Text() == s.Text() <==>
              && r.NestedOnly() == s.NestedOnly()
              && r.Nested() == s.Nested()
              && (!r.NestedOnly() ==> r.Flat() == s.Flat())
  {
    ParseOfRender(r.cfg, r.name, r.token, r.roles, r.tkaVersion);
    ParseOfRender(s.cfg, s.name, s.token, s.roles, s.tkaVersion);
    RenderIsText(r.cfg, r.name, r.token, r.roles, r.tkaVersion);
    RenderIsText(s.cfg, s.name, s.token, s.roles, s.tkaVersion);
    if r.Text() == s.Text() {
      MeaningDetermines(r, s);
    }
  }

  /** The nested block carries the configured override exactly when it parses to a version at or above the bundled
      one, in either layout, and never another. */
  lemma RenderedOverrideFloor(r: Rendering, data: Data)
    requires r.Valid() && VALUES in data && data[VALUES] == r.Text()
    ensures var version, parsed := r.cfg.teleportVersion, r.cfg.semver(Bare(r.cfg.teleportVersion));
            GetTeleportVersionFromConfigMap(data) ==
            Some(if parsed.Some? && SinceBundled(parsed.value) then version else "")
  {
    GettersOfRender(r.cfg, r.name, r.token, r.roles, r.tkaVersion, data);
    OverrideExactly(r.cfg.semver, r.cfg.teleportVersion);
  }

  /** The joined role string determines the role list. */
  lemma RolesStringInjective(a: seq<string>, b: seq<string>)
    requires IsRoleList(a) && IsRoleList(b) && RolesToString(a) == RolesToString(b)
    ensures a == b
  {
    ParseOfRolesToString(a);
    ParseOfRolesToString(b);
  }

  // --- Migration -----------------------------------------------------------------------------

  lemma ParsedStringsSafe(data: Data)
    ensures GetTokenFromConfigMap(data).Some? ==> Safe(GetTokenFromConfigMap(data).value)
    ensures RegisterNameFromConfigMap(data).Some? ==> Safe(RegisterNameFromConfigMap(data).value)
  {
    if VALUES in data && ParseDocument(data[VALUES]).Some? {
      ParsedIsSafe(data[VALUES]);
      var root := ParseDocument(data[VALUES]).value;
      assert AGENT_KEY in root ==> SafeNode(root[AGENT_KEY]);
      var values := ParseConfigMapValues(data).value;
      assert forall k :: k in values ==> SafeNode(values[k]);
    }
  }

  /** A rendered document is up to date for a chart exactly when that chart is on the same side of the
      threshold as the chart it was rendered for. */
  lemma LayoutUpToDate(r: Rendering, data: Data, target: string)
    requires r.Valid() && VALUES in data && data[VALUES] == r.Text()
    ensures IsConfigMapLayoutUpToDate(r.cfg.semver, data, target)
         == Some(r.NestedOnly() == UsesNestedKubeAgentValues(r.cfg.semver, target))
  {
    ParseOfRender(r.cfg, r.name, r.token, r.roles, r.tkaVersion);
    var root := Meaning(r.cfg, r.name, r.token, r.roles, r.tkaVersion);
    KeysDiffer();
    FieldMapLookups(r.Flat());
    assert root[AGENT_KEY].Block?;
    assert (FIELD_TOKEN in root && root[FIELD_TOKEN].Scalar?) == !r.NestedOnly();
  }

  /** Rewriting any readable document, whatever its layout, keeps its register name, stores the given token,
      and brings the layout up to date for the chart. */
  lemma UpdatePreservesMeaning(cfg: Config, data: Data, token: string, roles: seq<string>, tkaVersion: string)
    requires Safe(cfg.proxyAddr) && Safe(cfg.teleportVersion) && Safe(token) && IsRoleList(roles)
    requires RegisterNameFromConfigMap(data).Some?
    ensures var updated := UpdatedData(cfg, data, token, roles, tkaVersion);
            && updated.Some?
            && RegisterNameFromConfigMap(updated.value) == RegisterNameFromConfigMap(data)
            && GetTokenFromConfigMap(updated.value) == Some(token)
            && IsConfigMapLayoutUpToDate(cfg.semver, updated.value, tkaVersion) == Some(true)
            && updated.value.Keys == data.Keys + {VALUES}
            && forall k :: k in data && k != VALUES ==> updated.value[k] == data[k]
  {
    ParsedStringsSafe(data);
    SafeJoin(roles);
    var name := RegisterNameFromConfigMap(data).value;
    var updated := UpdatedData(cfg, data, token, roles, tkaVersion).value;
    GettersOfRender(cfg, name, token, roles, tkaVersion, updated);
    LayoutUpToDate(Rendering(cfg, name, token, roles, tkaVersion), updated, tkaVersion);
  }

  /** A flat document of an older operator is readable, carries the token and register name it was written
      with, and is out of date for every chart. */
  lemma FlatDocumentIsReadable(cfg: Config, name: string, token: string, roles: seq<string>, data: Data, target: string)
    requires SafeInputs(cfg, name, token, roles) && name != ""
    requires VALUES in data
    requires data[VALUES] == RenderFlatValuesBlock(token, cfg.proxyAddr, name, cfg.teleportVersion, roles)
    ensures GetTokenFromConfigMap(data) == Some(token) && RegisterNameFromConfigMap(data) == Some(name)
    ensures IsConfigMapLayoutUpToDate(cfg.semver, data, target) == Some(false)
  {
    var f := FlatFields(cfg, name, token, roles);
    BlockTextIsText(false, roles, f);
    BlockLinesWellFormed(false, f);
    ParseOfText(BlockLines(false, f));
    FlatBuild(f, []);
    assert BlockLines(false, f) + [] == BlockLines(false, f);
    StringAtField(f);
    FieldMapLookups(f);
  }
}
