/** The teleport-kube-agent values document, as internal/pkg/key/key.go renders it. */
module Values {
  import opened Prelude
  import opened Roles
  import opened Versions

  const AGENT_KEY := "teleport-kube-agent"
  const FIELD_ROLES := "roles"
  const FIELD_TOKEN := "authToken"
  const FIELD_PROXY := "proxyAddr"
  const FIELD_NAME := "kubeClusterName"
  const FIELD_OVERRIDE := "teleportVersionOverride"
  const INDENT := "  "

  /** Printable ASCII that stands for itself between double quotes. */
  predicate SafeChar(c: char) {
    ' ' <= c <= '~' && c != '\"' && c != '\\'
  }

  predicate Safe(s: string) {
    forall i :: 0 <= i < |s| ==> SafeChar(s[i])
  }

  function Escape(s: string): string {
    if s == [] then ""
    else (if s[0] == '\"' || s[0] == '\\' then ['\\', s[0]] else [s[0]]) + Escape(s[1..])
  }

  /** The verb %q of Go's fmt, on printable ASCII. */
  function GoQuote(s: string): string {
    "\"" + Escape(s) + "\""
  }

  /** A template line with the verb "%s" between literal quotes: the value is not escaped. */
  function EntryText(indent: string, key: string, value: string): string {
    indent + key + ": \"" + value + "\"" + "\n"
  }

  function OverrideText(indent: string, version: string): string {
    if version == "" then "" else indent + FIELD_OVERRIDE + ": " + GoQuote(version) + "\n"
  }

  function BlockText(indent: string, roles: seq<string>, authToken: string, proxyAddr: string,
                     kubeClusterName: string, teleportVersion: string): string
  {
    EntryText(indent, FIELD_ROLES, RolesToString(roles))
    + EntryText(indent, FIELD_TOKEN, authToken)
    + EntryText(indent, FIELD_PROXY, proxyAddr)
    + EntryText(indent, FIELD_NAME, kubeClusterName)
    + OverrideText(indent, teleportVersion)
  }

  function RenderFlatValuesBlock(authToken: string, proxyAddr: string, kubeClusterName: string,
                                 teleportVersion: string, roles: seq<string>): string
  {
    BlockText("", roles, authToken, proxyAddr, kubeClusterName, teleportVersion)
  }

  function RenderNestedValuesBlock(authToken: string, proxyAddr: string, kubeClusterName: string,
                                   teleportVersion: string, roles: seq<string>): string
  {
    AGENT_KEY + ":" + "\n" + BlockText(INDENT, roles, authToken, proxyAddr, kubeClusterName, teleportVersion)
  }

  /** Nested-only for charts at or above 0.11.0, flat followed by nested for every other version. */
  function GetConfigmapDataFromTemplate(parse: Parser, authToken: string, proxyAddr: string, kubeClusterName: string,
                                        teleportVersion: string, roles: seq<string>, tkaVersion: string): string
  {
    var flat := RenderFlatValuesBlock(authToken, proxyAddr, kubeClusterName, teleportVersion, roles);
    var nestedOverride := ResolveNestedTeleportVersionOverride(parse, teleportVersion);
    var nested := RenderNestedValuesBlock(authToken, proxyAddr, kubeClusterName, nestedOverride, roles);
    if UsesNestedKubeAgentValues(parse, tkaVersion) then nested else flat + nested
  }

  // --- The renderers of the source -----------------------------------------------------------

  method RenderFlatBody(authToken: string, proxyAddr: string, kubeClusterName: string, teleportVersion: string,
                        roles: seq<string>) returns (body: string)
    ensures body == RenderFlatValuesBlock(authToken, proxyAddr, kubeClusterName, teleportVersion, roles)
  {
    body := EntryText("", FIELD_ROLES, RolesToString(roles)) + EntryText("", FIELD_TOKEN, authToken)
          + EntryText("", FIELD_PROXY, proxyAddr) + EntryText("", FIELD_NAME, kubeClusterName);
    if teleportVersion != "" {
      body := body + OverrideText("", teleportVersion);
    }
  }

  method RenderNestedBody(authToken: string, proxyAddr: string, kubeClusterName: string, teleportVersion: string,
                          roles: seq<string>) returns (body: string)
    ensures body == RenderNestedValuesBlock(authToken, proxyAddr, kubeClusterName, teleportVersion, roles)
  {
    var entries := EntryText(INDENT, FIELD_ROLES, RolesToString(roles)) + EntryText(INDENT, FIELD_TOKEN, authToken)
                 + EntryText(INDENT, FIELD_PROXY, proxyAddr) + EntryText(INDENT, FIELD_NAME, kubeClusterName);
    body := AGENT_KEY + ":" + "\n" + entries;
    if teleportVersion != "" {
      body := body + OverrideText(INDENT, teleportVersion);
      ConcatAssociates(AGENT_KEY + ":" + "\n", entries, OverrideText(INDENT, teleportVersion));
    }
  }

  method BuildConfigmapData(parse: Parser, authToken: string, proxyAddr: string, kubeClusterName: string,
                            teleportVersion: string, roles: seq<string>, tkaVersion: string) returns (data: string)
    ensures data == GetConfigmapDataFromTemplate(parse, authToken, proxyAddr, kubeClusterName, teleportVersion, roles,
                                                 tkaVersion)
  {
    var flat := RenderFlatBody(authToken, proxyAddr, kubeClusterName, teleportVersion, roles);
    var nestedOverride := ResolveNestedTeleportVersionOverride(parse, teleportVersion);
    var nested := RenderNestedBody(authToken, proxyAddr, kubeClusterName, nestedOverride, roles);
    if UsesNestedKubeAgentValues(parse, tkaVersion) {
      return nested;
    }
    return flat + nested;
  }

  lemma {:induction false} EscapeOfSafe(s: string)
    requires Safe(s)
    ensures Escape(s) == s
  {
    if s != [] {
      EscapeOfSafe(s[1..]);
      assert [s[0]] + s[1..] == s;
    }
  }

  lemma {:induction false} SafeJoin(roles: seq<string>)
    requires forall r :: r in roles ==> IsKnown(r)
    ensures Safe(RolesToString(roles))
  {
    if roles != [] {
      assert roles[0] in roles;
      assert Safe(roles[0]);
      assert forall r :: r in roles[1..] ==> r in roles;
      SafeJoin(roles[1..]);
    }
  }
}
