/** Reading, rendering and rewriting the values ConfigMap (internal/pkg/teleport/configmap.go). */
module Documents {
  import opened Prelude
  import opened Roles
  import opened Versions
  import opened Keys
  import opened Values
  import opened Yaml

  const VALUES := "values"

  /** The Data of a ConfigMap. */
  type Data = map<string, string>

  function AsDocument(fields: map<string, string>): Document {
    map k | k in fields :: Scalar(fields[k])
  }

  /** The nested block if there is one, else the root. None stands for an error. */
  function ParseConfigMapValues(data: Data): Option<Document> {
    if VALUES !in data then None
    else
      var root :- ParseDocument(data[VALUES]);
      if AGENT_KEY in root && root[AGENT_KEY].Block? then Some(AsDocument(root[AGENT_KEY].fields))
      else Some(root)
  }

  /** The type assertion `values[key].(string)`. */
  function StringAt(values: Document, key: string): Option<string> {
    if key in values && values[key].Scalar? then Some(values[key].text) else None
  }

  function GetTokenFromConfigMap(data: Data): Option<string> {
    var values :- ParseConfigMapValues(data);
    StringAt(values, FIELD_TOKEN)
  }

  function RegisterNameFromConfigMap(data: Data): Option<string> {
    var values :- ParseConfigMapValues(data);
    var name :- StringAt(values, FIELD_NAME);
    if name == "" then None else Some(name)
  }

  /** Some("") when the override is absent. */
  function GetTeleportVersionFromConfigMap(data: Data): Option<string> {
    var values :- ParseConfigMapValues(data);
    match StringAt(values, FIELD_OVERRIDE)
    case None => Some("")
    case Some(version) => Some(version)
  }

  function IsConfigMapLayoutUpToDate(parse: Parser, data: Data, tkaVersion: string): Option<bool> {
    if VALUES !in data then None
    else
      var root :- ParseDocument(data[VALUES]);
      var hasNested := AGENT_KEY in root && root[AGENT_KEY].Block?;
      var hasFlat := FIELD_TOKEN in root && root[FIELD_TOKEN].Scalar?;
      Some(hasNested && (if UsesNestedKubeAgentValues(parse, tkaVersion) then !hasFlat else hasFlat))
  }

  function RenderConfigMapValues(cfg: Config, registerName: string, token: string, roles: seq<string>,
                                 tkaVersion: string): string
  {
    GetConfigmapDataFromTemplate(cfg.semver, token, cfg.proxyAddr, registerName, cfg.teleportVersion, roles, tkaVersion)
  }

  /** The Data that UpdateConfigMap writes: the register name comes from the stored document. */
  function UpdatedData(cfg: Config, data: Data, token: string, roles: seq<string>, tkaVersion: string): Option<Data> {
    var registerName :- RegisterNameFromConfigMap(data);
    Some(data[VALUES := RenderConfigMapValues(cfg, registerName, token, roles, tkaVersion)])
  }

  // --- The rendered block as lines -----------------------------------------------------------

  /** The values of one block; override "" means the line is absent. */
  datatype Fields = Fields(roles: string, token: string, proxy: string, name: string, override: string)

  predicate SafeFields(f: Fields) {
    Safe(f.roles) && Safe(f.token) && Safe(f.proxy) && Safe(f.name) && Safe(f.override)
  }

  function FieldMap(f: Fields): map<string, string> {
    var base := map[FIELD_ROLES := f.roles, FIELD_TOKEN := f.token, FIELD_PROXY := f.proxy, FIELD_NAME := f.name];
    if f.override == "" then base else base[FIELD_OVERRIDE := f.override]
  }

  function BlockLines(indented: bool, f: Fields): seq<Line> {
    [Line(indented, FIELD_ROLES, Some(f.roles)), Line(indented, FIELD_TOKEN, Some(f.token)),
     Line(indented, FIELD_PROXY, Some(f.proxy)), Line(indented, FIELD_NAME, Some(f.name))]
    + if f.override == "" then [] else [Line(indented, FIELD_OVERRIDE, Some(f.override))]
  }

  lemma KeysAreKeys()
    ensures IsKey(AGENT_KEY) && IsKey(FIELD_ROLES) && IsKey(FIELD_TOKEN) && IsKey(FIELD_PROXY)
    ensures IsKey(FIELD_NAME) && IsKey(FIELD_OVERRIDE)
  {
  }

  lemma KeysDiffer()
    ensures FIELD_ROLES != FIELD_TOKEN && FIELD_ROLES != FIELD_PROXY && FIELD_ROLES != FIELD_NAME
    ensures FIELD_ROLES != FIELD_OVERRIDE && FIELD_TOKEN != FIELD_PROXY && FIELD_TOKEN != FIELD_NAME
    ensures FIELD_TOKEN != FIELD_OVERRIDE && FIELD_PROXY != FIELD_NAME && FIELD_PROXY != FIELD_OVERRIDE
    ensures FIELD_NAME != FIELD_OVERRIDE
    ensures AGENT_KEY !in {FIELD_ROLES, FIELD_TOKEN, FIELD_PROXY, FIELD_NAME, FIELD_OVERRIDE}
  {
    assert FIELD_TOKEN[0] != FIELD_PROXY[0];
  }

  lemma BlockLinesWellFormed(indented: bool, f: Fields)
    requires SafeFields(f)
    ensures forall i :: 0 <= i < |BlockLines(indented, f)| ==> WellFormed(BlockLines(indented, f)[i])
  {
    KeysAreKeys();
  }

  lemma EntryIsLine(indented: bool, key: string, value: string)
    ensures EntryText(if indented then INDENT else "", key, value) == LineText(Line(indented, key, Some(value))) + "\n"
  {
    var indent := if indented then INDENT else "";
    assert indent + key + ": \"" + value + "\"" == indent + key + ":" + (" \"" + value + "\"");
  }

  lemma OverrideIsLine(indented: bool, version: string)
    requires Safe(version) && version != ""
    ensures OverrideText(if indented then INDENT else "", version)
         == LineText(Line(indented, FIELD_OVERRIDE, Some(version))) + "\n"
  {
    var indent := if indented then INDENT else "";
    EscapeOfSafe(version);
    assert indent + FIELD_OVERRIDE + ": " + ("\"" + version + "\"")
        == indent + FIELD_OVERRIDE + ":" + (" \"" + version + "\"");
  }

  lemma TextOfFour(a: Line, b: Line, c: Line, d: Line, rest: seq<Line>)
    ensures Text([a, b, c, d] + rest)
         == (LineText(a) + "\n") + (LineText(b) + "\n") + (LineText(c) + "\n") + (LineText(d) + "\n") + Text(rest)
  {
    TextConcat([a, b, c, d], rest);
    TextConcat([a, b, c], [d]);
    TextConcat([a, b], [c]);
    TextConcat([a], [b]);
    assert [a, b, c, d] == [a, b, c] + [d] && [a, b, c] == [a, b] + [c] && [a, b] == [a] + [b];
    assert forall l: Line :: Text([l]) == LineText(l) + "\n";
  }

  lemma BlockTextIsText(indented: bool, roles: seq<string>, f: Fields)
    requires Safe(f.override) && f.roles == RolesToString(roles)
    ensures BlockText(if indented then INDENT else "", roles, f.token, f.proxy, f.name, f.override)
         == Text(BlockLines(indented, f))
  {
    var lines := BlockLines(indented, f);
    EntryIsLine(indented, FIELD_ROLES, f.roles);
    EntryIsLine(indented, FIELD_TOKEN, f.token);
    EntryIsLine(indented, FIELD_PROXY, f.proxy);
    EntryIsLine(indented, FIELD_NAME, f.name);
    var rest := if f.override == "" then [] else [Line(indented, FIELD_OVERRIDE, Some(f.override))];
    TextOfFour(lines[0], lines[1], lines[2], lines[3], rest);
    if f.override != "" {
      OverrideIsLine(indented, f.override);
      assert Text(rest[1..]) == "";
    }
  }
}
