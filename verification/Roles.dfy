/** Role strings and Teleport system roles (internal/pkg/key/key.go). */
module Roles {
  import opened Prelude

  const ROLE_KUBE := "kube"
  const ROLE_APP := "app"
  const ROLE_NODE := "node"

  const SYSTEM_KUBE := "Kube"
  const SYSTEM_APP := "App"
  const SYSTEM_NODE := "Node"

  predicate IsKnown(role: string) {
    role == ROLE_KUBE || role == ROLE_APP || role == ROLE_NODE
  }

  /** A non-empty list of known roles: what the operator ever asks a token for. */
  predicate IsRoleList(roles: seq<string>) {
    roles != [] && forall r :: r in roles ==> IsKnown(r)
  }

  /** unicode.IsSpace restricted to Latin-1. */
  predicate IsSpace(c: char) {
    c == ' ' || '\t' <= c <= '\r' || c as int == 0x85 || c as int == 0xA0
  }

  function TrimLeft(s: string): string {
    if s != [] && IsSpace(s[0]) then TrimLeft(s[1..]) else s
  }

  function TrimRight(s: string): string {
    if s != [] && IsSpace(s[|s| - 1]) then TrimRight(s[..|s| - 1]) else s
  }

  function TrimSpace(s: string): string {
    TrimRight(TrimLeft(s))
  }

  function ParseParts(parts: seq<string>): Option<seq<string>> {
    if parts == [] then Some([])
    else
      var part := TrimSpace(parts[0]);
      if !IsKnown(part) then None
      else
        var rest :- ParseParts(parts[1..]);
        Some([part] + rest)
  }

  /** None stands for the "invalid role" error. */
  function ParseRoles(s: string): Option<seq<string>> {
    ParseParts(Split(s, ','))
  }

  function RolesToString(roles: seq<string>): string {
    Join(roles, ',')
  }

  function ToSystemRole(role: string): seq<string> {
    if role == ROLE_KUBE then [SYSTEM_KUBE]
    else if role == ROLE_APP then [SYSTEM_APP]
    else if role == ROLE_NODE then [SYSTEM_NODE]
    else []
  }

  /** Unknown roles are dropped, as the switch without a default does. */
  function RolesToSystemRoles(roles: seq<string>): seq<string> {
    if roles == [] then [] else ToSystemRole(roles[0]) + RolesToSystemRoles(roles[1..])
  }

  function LowerChar(c: char): char {
    if 'A' <= c <= 'Z' then (c as int + 32) as char else c
  }

  /** strings.ToLower on ASCII. */
  function ToLower(s: string): string {
    seq(|s|, i requires 0 <= i < |s| => LowerChar(s[i]))
  }

  function LowerAll(roles: seq<string>): seq<string> {
    seq(|roles|, i requires 0 <= i < |roles| => ToLower(roles[i]))
  }

  // --- The loops of the source -------------------------------------------------------------

  method ParseRolesLoop(s: string) returns (roles: Option<seq<string>>)
    ensures roles == ParseRoles(s)
  {
    var parts := Split(s, ',');
    var acc: seq<string> := [];
    assert parts[0..] == parts;
    assert forall rest: seq<string> :: acc + rest == rest;
    for i := 0 to |parts|
      invariant ParseParts(parts) ==
                (match ParseParts(parts[i..]) case None => None case Some(rest) => Some(acc + rest))
    {
      var part := TrimSpace(parts[i]);
      assert parts[i..][1..] == parts[i + 1..];
      if !IsKnown(part) {
        return None;
      }
      ghost var before := acc;
      acc := acc + [part];
      assert forall rest: seq<string> :: before + ([part] + rest) == acc + rest;
    }
    assert acc + [] == acc;
    return Some(acc);
  }

  method RolesToSystemRolesLoop(roles: seq<string>) returns (systemRoles: seq<string>)
    ensures systemRoles == RolesToSystemRoles(roles)
  {
    systemRoles := [];
    for i := 0 to |roles|
      invariant RolesToSystemRoles(roles) == systemRoles + RolesToSystemRoles(roles[i..])
    {
      assert roles[i..][1..] == roles[i + 1..];
      systemRoles := systemRoles + ToSystemRole(roles[i]);
    }
  }

  // --- Round trips -------------------------------------------------------------------------

  lemma KnownRoleIsPlain(role: string)
    requires IsKnown(role)
    ensures ',' !in role && TrimSpace(role) == role && ToLower(ToSystemRole(role)[0]) == role
  {
    assert !IsSpace(role[0]) && !IsSpace(role[|role| - 1]);
    assert TrimLeft(role) == role;
    var lowered := ToLower(ToSystemRole(role)[0]);
    assert |lowered| == |role| && forall i :: 0 <= i < |role| ==> lowered[i] == role[i];
  }

  lemma {:induction false} ParsePartsOfKnown(roles: seq<string>)
    requires forall r :: r in roles ==> IsKnown(r)
    ensures ParseParts(roles) == Some(roles)
  {
    if roles != [] {
      assert roles[0] in roles;
      KnownRoleIsPlain(roles[0]);
      assert forall r :: r in roles[1..] ==> r in roles;
      ParsePartsOfKnown(roles[1..]);
      assert [roles[0]] + roles[1..] == roles;
    }
  }

  /** Parsing the comma-joined string gives back the list, for every non-empty list of known roles. */
  lemma ParseOfRolesToString(roles: seq<string>)
    requires IsRoleList(roles)
    ensures ParseRoles(RolesToString(roles)) == Some(roles)
  {
    forall r | r in roles ensures ',' !in r {
      KnownRoleIsPlain(r);
    }
    SplitOfJoin(roles, ',');
    ParsePartsOfKnown(roles);
  }

  predicate AllSpace(s: string) {
    forall i :: 0 <= i < |s| ==> IsSpace(s[i])
  }

  /** A role with white space around it. */
  ghost predicate Padded(part: string, role: string) {
    exists before, after :: AllSpace(before) && AllSpace(after) && part == before + role + after
  }

  lemma {:induction false} TrimLeftDrops(before: string, s: string)
    requires AllSpace(before)
    ensures TrimLeft(before + s) == TrimLeft(s)
  {
    if before == [] {
      assert before + s == s;
    } else {
      assert (before + s)[0] == before[0] && (before + s)[1..] == before[1..] + s;
      TrimLeftDrops(before[1..], s);
    }
  }

  lemma {:induction false} TrimRightDrops(s: string, after: string)
    requires AllSpace(after)
    ensures TrimRight(s + after) == TrimRight(s)
  {
    if after == [] {
      assert s + after == s;
    } else {
      var all, shorter := s + after, after[..|after| - 1];
      assert all[|all| - 1] == after[|after| - 1] && all[..|all| - 1] == s + shorter;
      TrimRightDrops(s, shorter);
    }
  }

  lemma {:induction false} TrimLeftLeaves(s: string) returns (before: string)
    ensures AllSpace(before) && s == before + TrimLeft(s)
  {
    if s != [] && IsSpace(s[0]) {
      var rest := TrimLeftLeaves(s[1..]);
      before := [s[0]] + rest;
      assert s == [s[0]] + s[1..];
    } else {
      before := "";
    }
  }

  lemma {:induction false} TrimRightLeaves(s: string) returns (after: string)
    ensures AllSpace(after) && s == TrimRight(s) + after
  {
    if s != [] && IsSpace(s[|s| - 1]) {
      var rest := TrimRightLeaves(s[..|s| - 1]);
      after := rest + [s[|s| - 1]];
      assert s == s[..|s| - 1] + [s[|s| - 1]];
      ConcatAssociates(TrimRight(s), rest, [s[|s| - 1]]);
    } else {
      after := "";
      assert s + "" == s;
    }
  }

  /** Stripping a part gives a known role exactly when the part is that role with white space around it. */
  lemma TrimSpaceExactly(part: string, role: string)
    requires IsKnown(role)
    ensures TrimSpace(part) == role <==> Padded(part, role)
  {
    if TrimSpace(part) == role {
      var before := TrimLeftLeaves(part);
      var after := TrimRightLeaves(TrimLeft(part));
      ConcatAssociates(before, role, after);
    }
    if before, after :| AllSpace(before) && AllSpace(after) && part == before + role + after {
      KnownRoleIsPlain(role);
      ConcatAssociates(before, role, after);
      TrimLeftDrops(before, role + after);
      assert !IsSpace(role[0]) && (role + after)[0] == role[0];
      TrimRightDrops(role, after);
      assert TrimLeft(role) == role;
    }
  }

  lemma {:induction false} ParsePartsExactly(parts: seq<string>, roles: seq<string>)
    ensures ParseParts(parts) == Some(roles) <==>
              |roles| == |parts| && forall i :: 0 <= i < |roles| ==> IsKnown(roles[i]) && Padded(parts[i], roles[i])
  {
    if parts != [] && roles != [] {
      ParsePartsExactly(parts[1..], roles[1..]);
      if IsKnown(roles[0]) {
        TrimSpaceExactly(parts[0], roles[0]);
      }
      assert roles == [roles[0]] + roles[1..];
      assert forall i :: 0 <= i < |roles[1..]| ==> roles[1..][i] == roles[i + 1];
      assert forall i :: 0 <= i < |parts[1..]| ==> parts[1..][i] == parts[i + 1];
    }
  }

  /** What is accepted, and as what: a comma-separated list of known roles, white space around each of them allowed. */
  lemma ParseRolesExactly(s: string, roles: seq<string>)
    ensures ParseRoles(s) == Some(roles) <==>
              exists parts: seq<string> ::
                && parts != [] && |parts| == |roles| && Join(parts, ',') == s
                && forall i :: 0 <= i < |roles| ==> ',' !in parts[i] && IsKnown(roles[i]) && Padded(parts[i], roles[i])
  {
    var split := Split(s, ',');
    JoinOfSplit(s, ',');
    ParsePartsExactly(split, roles);
    assert forall i :: 0 <= i < |split| ==> split[i] in split;
    if parts: seq<string> :|
      && parts != [] && |parts| == |roles| && Join(parts, ',') == s
      && forall i :: 0 <= i < |roles| ==> ',' !in parts[i] && IsKnown(roles[i]) && Padded(parts[i], roles[i])
    {
      SplitOfJoin(parts, ',');
    }
  }

  /** Whatever ParseRoles accepts is a non-empty list of known roles: the string is never empty of roles. */
  lemma {:induction false} ParsePartsKnown(parts: seq<string>)
    ensures ParseParts(parts).Some? ==>
              |ParseParts(parts).value| == |parts| && forall r :: r in ParseParts(parts).value ==> IsKnown(r)
  {
    if parts != [] {
      ParsePartsKnown(parts[1..]);
    }
  }

  lemma ParseRolesKnown(s: string)
    ensures ParseRoles(s).Some? ==> IsRoleList(ParseRoles(s).value)
  {
    ParsePartsKnown(Split(s, ','));
  }

  /** Lower-casing the system roles of known roles gives the roles back, position by position. */
  lemma {:induction false} LowerOfSystemRoles(roles: seq<string>)
    requires forall r :: r in roles ==> IsKnown(r)
    ensures LowerAll(RolesToSystemRoles(roles)) == roles
  {
    if roles == [] {
    } else {
      assert roles[0] in roles;
      KnownRoleIsPlain(roles[0]);
      assert forall r :: r in roles[1..] ==> r in roles;
      LowerOfSystemRoles(roles[1..]);
      var tail := RolesToSystemRoles(roles[1..]);
      assert RolesToSystemRoles(roles) == [ToSystemRole(roles[0])[0]] + tail;
      assert LowerAll(RolesToSystemRoles(roles)) == [roles[0]] + LowerAll(tail);
    }
  }
}
