/** What a rendered values document means when it is read back. */
module RoundTrip {
  import opened Prelude
  import opened Roles
  import opened Versions
  import opened Keys
  import opened Values
  import opened Yaml
  import opened Documents

  // --- Building the mapping of one block -----------------------------------------------------

  lemma FlatStep(key: string, value: string, rest: seq<Line>, root: Document)
    requires key !in root
    ensures Build([Line(false, key, Some(value))] + rest, root, None) == Build(rest, root[key := Scalar(value)], None)
  {
    assert ([Line(false, key, Some(value))] + rest)[1..] == rest;
  }

  lemma FlatBuildFour(f: Fields, rest: seq<Line>)
    requires f.override == ""
    ensures Build(BlockLines(false, f) + rest, map[], None)
         == Build(rest, map[FIELD_ROLES := Scalar(f.roles), FIELD_TOKEN := Scalar(f.token),
                            FIELD_PROXY := Scalar(f.proxy), FIELD_NAME := Scalar(f.name)], None)
  {
    KeysDiffer();
    var l0, l1 := Line(false, FIELD_ROLES, Some(f.roles)), Line(false, FIELD_TOKEN, Some(f.token));
    var l2, l3 := Line(false, FIELD_PROXY, Some(f.proxy)), Line(false, FIELD_NAME, Some(f.name));
    var r0: Document := map[FIELD_ROLES := Scalar(f.roles)];
    var r1 := r0[FIELD_TOKEN := Scalar(f.token)];
    var r2 := r1[FIELD_PROXY := Scalar(f.proxy)];
    FlatStep(FIELD_ROLES, f.roles, [l1] + ([l2] + ([l3] + rest)), map[]);
    FlatStep(FIELD_TOKEN, f.token, [l2] + ([l3] + rest), r0);
    FlatStep(FIELD_PROXY, f.proxy, [l3] + rest, r1);
    FlatStep(FIELD_NAME, f.name, rest, r2);
    assert BlockLines(false, f) + rest == [l0] + ([l1] + ([l2] + ([l3] + rest)));
  }

  lemma FlatBuild(f: Fields, rest: seq<Line>)
    ensures Build(BlockLines(false, f) + rest, map[], None) == Build(rest, AsDocument(FieldMap(f)), None)
  {
    KeysDiffer();
    var four := f.(override := "");
    var root: Document := map[FIELD_ROLES := Scalar(f.roles), FIELD_TOKEN := Scalar(f.token),
                              FIELD_PROXY := Scalar(f.proxy), FIELD_NAME := Scalar(f.name)];
    assert root == AsDocument(FieldMap(four));
    if f.override == "" {
      FlatBuildFour(f, rest);
    } else {
      var last := [Line(false, FIELD_OVERRIDE, Some(f.override))];
      assert BlockLines(false, f) + rest == BlockLines(false, four) + (last + rest);
      FlatBuildFour(four, last + rest);
      FlatStep(FIELD_OVERRIDE, f.override, rest, root);
      assert root[FIELD_OVERRIDE := Scalar(f.override)] == AsDocument(FieldMap(f));
    }
  }

  lemma NestedStep(key: string, value: string, rest: seq<Line>, root: Document, fields: map<string, string>)
    requires key !in fields
    ensures Build([Line(true, key, Some(value))] + rest, root[AGENT_KEY := Block(fields)], Some(AGENT_KEY))
         == Build(rest, root[AGENT_KEY := Block(fields[key := value])], Some(AGENT_KEY))
  {
    assert ([Line(true, key, Some(value))] + rest)[1..] == rest;
    var next := fields[key := value];
    assert root[AGENT_KEY := Block(fields)][AGENT_KEY := Block(next)] == root[AGENT_KEY := Block(next)];
  }

  lemma NestedStart(value: string, rest: seq<Line>, root: Document)
    requires AGENT_KEY !in root
    ensures Build([Line(false, AGENT_KEY, None)] + ([Line(true, FIELD_ROLES, Some(value))] + rest), root, None)
         == Build(rest, root[AGENT_KEY := Block(map[FIELD_ROLES := value])], Some(AGENT_KEY))
  {
    var header, first := Line(false, AGENT_KEY, None), Line(true, FIELD_ROLES, Some(value));
    assert ([header] + ([first] + rest))[1..] == [first] + rest;
    assert ([first] + rest)[1..] == rest;
    var block := Block(map[FIELD_ROLES := value]);
    assert root[AGENT_KEY := Null][AGENT_KEY := block] == root[AGENT_KEY := block];
  }

  lemma NestedBuild(f: Fields, root: Document)
    requires AGENT_KEY !in root
    ensures Build([Line(false, AGENT_KEY, None)] + BlockLines(true, f), root, None)
         == Some(root[AGENT_KEY := Block(FieldMap(f))])
  {
    KeysDiffer();
    var tail := if f.override == "" then [] else [Line(true, FIELD_OVERRIDE, Some(f.override))];
    var l0, l1 := Line(true, FIELD_ROLES, Some(f.roles)), Line(true, FIELD_TOKEN, Some(f.token));
    var l2, l3 := Line(true, FIELD_PROXY, Some(f.proxy)), Line(true, FIELD_NAME, Some(f.name));
    var m0 := map[FIELD_ROLES := f.roles];
    var m1 := m0[FIELD_TOKEN := f.token];
    var m2 := m1[FIELD_PROXY := f.proxy];
    var m3 := m2[FIELD_NAME := f.name];
    NestedStart(f.roles, [l1] + ([l2] + ([l3] + tail)), root);
    NestedStep(FIELD_TOKEN, f.token, [l2] + ([l3] + tail), root, m0);
    NestedStep(FIELD_PROXY, f.proxy, [l3] + tail, root, m1);
    NestedStep(FIELD_NAME, f.name, tail, root, m2);
    assert BlockLines(true, f) == [l0] + ([l1] + ([l2] + ([l3] + tail)));
    if f.override == "" {
      assert m3 == FieldMap(f);
    } else {
      NestedStep(FIELD_OVERRIDE, f.override, [], root, m3);
      assert tail + [] == tail;
      assert m3[FIELD_OVERRIDE := f.override] == FieldMap(f);
    }
  }

  // --- The document as a whole ---------------------------------------------------------------

  function FlatFields(cfg: Config, name: string, token: string, roles: seq<string>): Fields {
    Fields(RolesToString(roles), token, cfg.proxyAddr, name, cfg.teleportVersion)
  }

  function NestedFields(cfg: Config, name: string, token: string, roles: seq<string>): Fields {
    Fields(RolesToString(roles), token, cfg.proxyAddr, name,
           ResolveNestedTeleportVersionOverride(cfg.semver, cfg.teleportVersion))
  }

  /** The inputs the templates can carry without escaping. */
  predicate SafeInputs(cfg: Config, name: string, token: string, roles: seq<string>) {
    Safe(cfg.proxyAddr) && Safe(cfg.teleportVersion) && Safe(name) && Safe(token) && Safe(RolesToString(roles))
  }

  /** What a rendered document says. */
  function Meaning(cfg: Config, name: string, token: string, roles: seq<string>, tkaVersion: string): Document {
    var root := if UsesNestedKubeAgentValues(cfg.semver, tkaVersion) then map[]
                else AsDocument(FieldMap(FlatFields(cfg, name, token, roles)));
    root[AGENT_KEY := Block(FieldMap(NestedFields(cfg, name, token, roles)))]
  }

  lemma NestedBlockIsText(indentedBlock: string, lines: seq<Line>)
    requires indentedBlock == Text(lines)
    ensures AGENT_KEY + ":" + "\n" + indentedBlock == Text([Line(false, AGENT_KEY, None)] + lines)
  {
    var header := Line(false, AGENT_KEY, None);
    assert ([header] + lines)[1..] == lines;
    assert LineText(header) == AGENT_KEY + ":";
  }

  function DocumentLines(cfg: Config, name: string, token: string, roles: seq<string>, tkaVersion: string): seq<Line> {
    (if UsesNestedKubeAgentValues(cfg.semver, tkaVersion) then []
     else BlockLines(false, FlatFields(cfg, name, token, roles)))
    + ([Line(false, AGENT_KEY, None)] + BlockLines(true, NestedFields(cfg, name, token, roles)))
  }

  lemma RenderIsText(cfg: Config, name: string, token: string, roles: seq<string>, tkaVersion: string)
    requires SafeInputs(cfg, name, token, roles)
    ensures RenderConfigMapValues(cfg, name, token, roles, tkaVersion)
         == Text(DocumentLines(cfg, name, token, roles, tkaVersion))
  {
    var flat, nested := FlatFields(cfg, name, token, roles), NestedFields(cfg, name, token, roles);
    BlockTextIsText(false, roles, flat);
    BlockTextIsText(true, roles, nested);
    NestedBlockIsText(Text(BlockLines(true, nested)), BlockLines(true, nested));
    var block := [Line(false, AGENT_KEY, None)] + BlockLines(true, nested);
    if UsesNestedKubeAgentValues(cfg.semver, tkaVersion) {
      assert [] + block == block;
    } else {
      TextConcat(BlockLines(false, flat), block);
    }
  }

  lemma DocumentLinesWellFormed(cfg: Config, name: string, token: string, roles: seq<string>, tkaVersion: string)
    requires SafeInputs(cfg, name, token, roles)
    ensures var lines := DocumentLines(cfg, name, token, roles, tkaVersion);
            forall i :: 0 <= i < |lines| ==> WellFormed(lines[i])
  {
    KeysAreKeys();
    BlockLinesWellFormed(false, FlatFields(cfg, name, token, roles));
    BlockLinesWellFormed(true, NestedFields(cfg, name, token, roles));
  }

  lemma BuildOfDocumentLines(cfg: Config, name: string, token: string, roles: seq<string>, tkaVersion: string)
    ensures Build(DocumentLines(cfg, name, token, roles, tkaVersion), map[], None)
         == Some(Meaning(cfg, name, token, roles, tkaVersion))
  {
    var flat, nested := FlatFields(cfg, name, token, roles), NestedFields(cfg, name, token, roles);
    var block := [Line(false, AGENT_KEY, None)] + BlockLines(true, nested);
    KeysDiffer();
    if UsesNestedKubeAgentValues(cfg.semver, tkaVersion) {
      assert [] + block == block;
      NestedBuild(nested, map[]);
    } else {
      FlatBuild(flat, block);
      NestedBuild(nested, AsDocument(FieldMap(flat)));
    }
  }

  /** Round trip: reading a rendered document gives exactly what was rendered, in both layouts. */
  lemma ParseOfRender(cfg: Config, name: string, token: string, roles: seq<string>, tkaVersion: string)
    requires SafeInputs(cfg, name, token, roles)
    ensures ParseDocument(RenderConfigMapValues(cfg, name, token, roles, tkaVersion))
         == Some(Meaning(cfg, name, token, roles, tkaVersion))
  {
    RenderIsText(cfg, name, token, roles, tkaVersion);
    DocumentLinesWellFormed(cfg, name, token, roles, tkaVersion);
    ParseOfText(DocumentLines(cfg, name, token, roles, tkaVersion));
    BuildOfDocumentLines(cfg, name, token, roles, tkaVersion);
  }

  lemma FieldMapLookups(f: Fields)
    ensures var m := FieldMap(f);
            && m[FIELD_ROLES] == f.roles && m[FIELD_TOKEN] == f.token
            && m[FIELD_PROXY] == f.proxy && m[FIELD_NAME] == f.name
            && (FIELD_OVERRIDE in m <==> f.override != "")
            && (f.override != "" ==> m[FIELD_OVERRIDE] == f.override)
            && AGENT_KEY !in m
  {
    KeysDiffer();
  }

  lemma FieldMapInjective(f: Fields, g: Fields)
    requires FieldMap(f) == FieldMap(g)
    ensures f == g
  {
    FieldMapLookups(f);
    FieldMapLookups(g);
  }

  /** Where there is a nested block, it is what the operator reads. */
  lemma NestedBlockIsRead(data: Data, root: Document, fields: map<string, string>)
    requires VALUES in data && ParseDocument(data[VALUES]) == Some(root[AGENT_KEY := Block(fields)])
    ensures ParseConfigMapValues(data) == Some(AsDocument(fields))
  {
  }

  /** The values the operator reads back are those of the nested block. */
  lemma ValuesOfRender(cfg: Config, name: string, token: string, roles: seq<string>, tkaVersion: string, data: Data)
    requires SafeInputs(cfg, name, token, roles)
    requires VALUES in data && data[VALUES] == RenderConfigMapValues(cfg, name, token, roles, tkaVersion)
    ensures ParseConfigMapValues(data) == Some(AsDocument(FieldMap(NestedFields(cfg, name, token, roles))))
  {
    ParseOfRender(cfg, name, token, roles, tkaVersion);
    var root := if UsesNestedKubeAgentValues(cfg.semver, tkaVersion) then map[]
                else AsDocument(FieldMap(FlatFields(cfg, name, token, roles)));
    NestedBlockIsRead(data, root, FieldMap(NestedFields(cfg, name, token, roles)));
  }

  lemma StringAtField(f: Fields)
    ensures StringAt(AsDocument(FieldMap(f)), FIELD_TOKEN) == Some(f.token)
    ensures StringAt(AsDocument(FieldMap(f)), FIELD_NAME) == Some(f.name)
    ensures StringAt(AsDocument(FieldMap(f)), FIELD_OVERRIDE) == if f.override == "" then None else Some(f.override)
  {
    FieldMapLookups(f);
  }

  /** The getters of the operator return what was rendered: the token, the register name unless it is
      empty, and the override of the nested block. */
  lemma GettersOfRender(cfg: Config, name: string, token: string, roles: seq<string>, tkaVersion: string, data: Data)
    requires SafeInputs(cfg, name, token, roles)
    requires VALUES in data && data[VALUES] == RenderConfigMapValues(cfg, name, token, roles, tkaVersion)
    ensures GetTokenFromConfigMap(data) == Some(token)
    ensures RegisterNameFromConfigMap(data) == if name == "" then None else Some(name)
    ensures GetTeleportVersionFromConfigMap(data)
         == Some(ResolveNestedTeleportVersionOverride(cfg.semver, cfg.teleportVersion))
  {
    ValuesOfRender(cfg, name, token, roles, tkaVersion, data);
    StringAtField(NestedFields(cfg, name, token, roles));
  }
}
