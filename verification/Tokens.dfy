/** Teleport provision tokens: validity, generation and deletion (internal/pkg/teleport/token.go). */
module Tokens {
  import opened Prelude
  import opened Roles

  const NANOSECOND := 1
  const MINUTE := 60 * 1_000_000_000 * NANOSECOND
  const HOUR := 60 * MINUTE
  const TOKEN_VALIDITY := 720 * HOUR

  const LABEL_CLUSTER := "cluster"
  const LABEL_ROLES := "roles"

  /** expiry None is Go's zero time. */
  datatype Token = Token(name: string, labels: map<string, string>, roles: seq<string>, expiry: Option<int>)

  /** A missing label reads as the empty string. */
  function ClusterLabel(t: Token): string {
    if LABEL_CLUSTER in t.labels then t.labels[LABEL_CLUSTER] else ""
  }

  predicate UniqueNames(tokens: seq<Token>) {
    forall i, j :: 0 <= i < j < |tokens| ==> tokens[i].name != tokens[j].name
  }

  predicate Matches(t: Token, registerName: string, name: string) {
    t.name == name && ClusterLabel(t) == registerName
  }

  predicate ContainsRole(roles: seq<string>, role: string) {
    exists i :: 0 <= i < |roles| && ToLower(roles[i]) == role
  }

  /** The verdict on the token that was found. */
  predicate Accepts(t: Token, expected: seq<string>, now: int) {
    && t.expiry.Some? && t.expiry.value > now
    && |t.roles| == |expected|
    && forall role :: role in expected ==> ContainsRole(t.roles, role)
  }

  /** The first token with that name and label decides. */
  predicate IsTokenValid(tokens: seq<Token>, registerName: string, name: string, expected: seq<string>, now: int) {
    tokens != [] &&
    if Matches(tokens[0], registerName, name) then Accepts(tokens[0], expected, now)
    else IsTokenValid(tokens[1..], registerName, name, expected, now)
  }

  function NewToken(name: string, registerName: string, roles: seq<string>, now: int): Token {
    Token(name, map[LABEL_CLUSTER := registerName, LABEL_ROLES := RolesToString(roles)],
          RolesToSystemRoles(roles), Some(now + TOKEN_VALIDITY))
  }

  /** The token service keys tokens by name. */
  function Upsert(tokens: seq<Token>, t: Token): seq<Token> {
    if tokens == [] then [t]
    else if tokens[0].name == t.name then [t] + tokens[1..]
    else [tokens[0]] + Upsert(tokens[1..], t)
  }

  /** Position of the token with that name, or the length. */
  function IndexOf(tokens: seq<Token>, name: string): (i: nat)
    ensures i <= |tokens|
    ensures i < |tokens| ==> tokens[i].name == name
    ensures forall j :: 0 <= j < i ==> tokens[j].name != name
  {
    if tokens == [] || tokens[0].name == name then 0 else 1 + IndexOf(tokens[1..], name)
  }

  function Without(tokens: seq<Token>, i: nat): seq<Token> {
    if i >= |tokens| then tokens else tokens[..i] + tokens[i + 1..]
  }

  function DeleteByName(tokens: seq<Token>, name: string): seq<Token> {
    Without(tokens, IndexOf(tokens, name))
  }

  function FirstLabelled(tokens: seq<Token>, registerName: string): Option<string> {
    if tokens == [] then None
    else if ClusterLabel(tokens[0]) == registerName then Some(tokens[0].name)
    else FirstLabelled(tokens[1..], registerName)
  }

  /** The store after DeleteToken: it returns after the first token with the label. */
  function DeleteOneLabelled(tokens: seq<Token>, registerName: string): seq<Token> {
    match FirstLabelled(tokens, registerName)
    case None => tokens
    case Some(name) => DeleteByName(tokens, name)
  }

  // --- The loops of the source ---------------------------------------------------------------

  method ContainsRoleLoop(roles: seq<string>, role: string) returns (found: bool)
    ensures found <==> ContainsRole(roles, role)
  {
    for i := 0 to |roles|
      invariant forall j :: 0 <= j < i ==> ToLower(roles[j]) != role
    {
      if ToLower(roles[i]) == role {
        return true;
      }
    }
    return false;
  }

  method ScanTokens(tokens: seq<Token>, registerName: string, name: string, expected: seq<string>, now: int)
    returns (valid: bool)
    ensures valid <==> IsTokenValid(tokens, registerName, name, expected, now)
  {
    for i := 0 to |tokens|
      invariant IsTokenValid(tokens, registerName, name, expected, now)
           <==> IsTokenValid(tokens[i..], registerName, name, expected, now)
    {
      assert tokens[i..][1..] == tokens[i + 1..];
      var t := tokens[i];
      if t.name == name && ClusterLabel(t) == registerName {
        if t.expiry.Some? && t.expiry.value > now {
          if |t.roles| != |expected| {
            return false;
          }
          for j := 0 to |expected|
            invariant forall k :: 0 <= k < j ==> ContainsRole(t.roles, expected[k])
          {
            var found := ContainsRoleLoop(t.roles, expected[j]);
            if !found {
              assert expected[j] in expected;
              return false;
            }
          }
          return true;
        }
        return false;
      }
    }
    return false;
  }

  method FindLabelled(tokens: seq<Token>, registerName: string) returns (name: Option<string>)
    ensures name == FirstLabelled(tokens, registerName)
  {
    for i := 0 to |tokens|
      invariant FirstLabelled(tokens, registerName) == FirstLabelled(tokens[i..], registerName)
    {
      assert tokens[i..][1..] == tokens[i + 1..];
      if ClusterLabel(tokens[i]) == registerName {
        return Some(tokens[i].name);
      }
    }
    return None;
  }

  // --- Validity ------------------------------------------------------------------------------

  /** The store holds an unexpired token with this name and label whose lower-cased roles are a
      permutation of `roles`. */
  predicate ValidAt(tokens: seq<Token>, registerName: string, name: string, roles: seq<string>, now: int) {
    exists t :: t in tokens && Matches(t, registerName, name)
                && t.expiry.Some? && t.expiry.value > now
                && multiset(LowerAll(t.roles)) == multiset(roles)
  }

  lemma {:induction false} DistinctCounts(s: seq<string>, x: string)
    requires Distinct(s)
    ensures multiset(s)[x] <= 1
  {
    if s != [] {
      assert s == [s[0]] + s[1..];
      DistinctCounts(s[1..], x);
    }
  }

  /** Pigeonhole: a list as long as a list of distinct roles that contains them all is a permutation of it. */
  lemma Permutation(roles: seq<string>, expected: seq<string>)
    requires Distinct(expected) && |roles| == |expected|
    requires forall role :: role in expected ==> role in roles
    ensures multiset(roles) == multiset(expected)
  {
    forall x ensures multiset(expected)[x] <= multiset(roles)[x] {
      DistinctCounts(expected, x);
      if x in expected {
        assert x in roles;
      }
    }
    assert multiset(expected) <= multiset(roles);
    assert |multiset(roles) - multiset(expected)| == 0;
    assert multiset(roles) == multiset(expected) + (multiset(roles) - multiset(expected));
  }

  lemma AcceptsExactly(t: Token, expected: seq<string>, now: int)
    requires Distinct(expected)
    ensures Accepts(t, expected, now) <==>
              t.expiry.Some? && t.expiry.value > now && multiset(LowerAll(t.roles)) == multiset(expected)
  {
    var lowered := LowerAll(t.roles);
    assert forall role :: ContainsRole(t.roles, role) <==> role in lowered by {
      forall role ensures ContainsRole(t.roles, role) <==> role in lowered {
        if ContainsRole(t.roles, role) {
          var i :| 0 <= i < |t.roles| && ToLower(t.roles[i]) == role;
          assert lowered[i] == role;
        }
        if role in lowered {
          var i :| 0 <= i < |lowered| && lowered[i] == role;
          assert ToLower(t.roles[i]) == role;
        }
      }
    }
    if Accepts(t, expected, now) {
      Permutation(lowered, expected);
    }
    if multiset(lowered) == multiset(expected) {
      assert |lowered| == |multiset(lowered)| == |multiset(expected)| == |expected|;
      forall role | role in expected ensures role in lowered {
        assert role in multiset(expected);
      }
    }
  }

  lemma {:induction false} ValidityOfOne(tokens: seq<Token>, registerName: string, name: string,
                                         expected: seq<string>, now: int, t: Token)
    requires UniqueNames(tokens) && t in tokens && t.name == name
    ensures IsTokenValid(tokens, registerName, name, expected, now)
       <==> Matches(t, registerName, name) && Accepts(t, expected, now)
  {
    if tokens[0] == t {
      if !Matches(t, registerName, name) {
        NoMatch(tokens[1..], registerName, name, expected, now);
      }
    } else {
      assert t in tokens[1..];
      var i :| 0 <= i < |tokens[1..]| && tokens[1..][i] == t;
      assert tokens[0].name != tokens[i + 1].name;
      ValidityOfOne(tokens[1..], registerName, name, expected, now, t);
    }
  }

  lemma {:induction false} NoMatch(tokens: seq<Token>, registerName: string, name: string, expected: seq<string>, now: int)
    requires forall i :: 0 <= i < |tokens| ==> tokens[i].name != name
    ensures !IsTokenValid(tokens, registerName, name, expected, now)
  {
    if tokens != [] {
      NoMatch(tokens[1..], registerName, name, expected, now);
    }
  }

  /** The check is exact when names are unique and the expected roles distinct. */
  lemma IsTokenValidExactly(tokens: seq<Token>, registerName: string, name: string, expected: seq<string>, now: int)
    requires UniqueNames(tokens) && Distinct(expected)
    ensures IsTokenValid(tokens, registerName, name, expected, now)
       <==> ValidAt(tokens, registerName, name, expected, now)
  {
    if t :| t in tokens && t.name == name {
      ValidityOfOne(tokens, registerName, name, expected, now, t);
      AcceptsExactly(t, expected, now);
      forall u | u in tokens && u.name == name ensures u == t {
        var i :| 0 <= i < |tokens| && tokens[i] == t;
        var j :| 0 <= j < |tokens| && tokens[j] == u;
        assert i == j;
      }
    } else {
      NoMatch(tokens, registerName, name, expected, now);
    }
  }

  lemma LowersTo(t: Token, roles: seq<string>, role: string)
    requires LowerAll(t.roles) == roles && role in roles
    ensures ContainsRole(t.roles, role)
  {
    var i :| 0 <= i < |roles| && roles[i] == role;
    assert ToLower(t.roles[i]) == LowerAll(t.roles)[i];
  }

  /** With repeated expected roles the check is never exact: a token with another role in place of the second copy
      is accepted too. */
  lemma RepeatedRolesAreNotExact(registerName: string, name: string, expected: seq<string>, now: int) returns (t: Token)
    requires IsRoleList(expected) && !Distinct(expected)
    ensures IsTokenValid([t], registerName, name, expected, now) && !ValidAt([t], registerName, name, expected, now)
  {
    var i, j :| 0 <= i < j < |expected| && expected[i] == expected[j];
    var other := if expected[j] == ROLE_KUBE then ROLE_APP else ROLE_KUBE;
    var roles := expected[j := other];
    assert forall r :: r in roles ==> r in expected || r == other;
    t := Token(name, map[LABEL_CLUSTER := registerName], RolesToSystemRoles(roles), Some(now + 1));
    LowerOfSystemRoles(roles);
    assert |t.roles| == |LowerAll(t.roles)| == |expected|;
    forall role | role in expected ensures ContainsRole(t.roles, role) {
      var k :| 0 <= k < |expected| && expected[k] == role;
      assert role == roles[if k == j then i else k];
      LowersTo(t, roles, role);
    }
    assert multiset(roles)[other] == multiset(expected)[other] + 1;
    assert [t][0] == t;
  }

  ghost predicate ExactFor(expected: seq<string>) {
    forall tokens: seq<Token>, registerName: string, name: string, now: int :: UniqueNames(tokens) ==>
      (IsTokenValid(tokens, registerName, name, expected, now) <==> ValidAt(tokens, registerName, name, expected, now))
  }

  /** The check is exact for a list of roles if and only if it repeats none. */
  lemma ExactIffDistinct(expected: seq<string>)
    requires IsRoleList(expected)
    ensures ExactFor(expected) <==> Distinct(expected)
  {
    if Distinct(expected) {
      forall tokens: seq<Token>, registerName: string, name: string, now: int | UniqueNames(tokens)
        ensures IsTokenValid(tokens, registerName, name, expected, now)
           <==> ValidAt(tokens, registerName, name, expected, now)
      {
        IsTokenValidExactly(tokens, registerName, name, expected, now);
      }
    } else {
      var t := RepeatedRolesAreNotExact("", "", expected, 0);
      assert UniqueNames([t]);
    }
  }

  lemma NewTokenValidity(tokens: seq<Token>, name: string, registerName: string, roles: seq<string>, t0: int, now: int)
    requires UniqueNames(tokens) && NewToken(name, registerName, roles, t0) in tokens
    requires IsRoleList(roles) && Distinct(roles)
    ensures ValidAt(tokens, registerName, name, roles, now) <==> now < t0 + 720 * HOUR
  {
    LowerOfSystemRoles(roles);
    var t := NewToken(name, registerName, roles, t0);
    ValidityOfOne(tokens, registerName, name, roles, now, t);
    IsTokenValidExactly(tokens, registerName, name, roles, now);
    AcceptsExactly(t, roles, now);
  }

  /** Generate, then validate: in every store with unique names that still holds the token, the check on the
      joined role string accepts it from its creation for 720 hours and rejects it afterwards. */
  lemma GeneratedTokenIsValid(tokens: seq<Token>, name: string, registerName: string, roles: seq<string>, t0: int, now: int)
    requires UniqueNames(tokens) && NewToken(name, registerName, roles, t0) in tokens
    requires IsRoleList(roles) && Distinct(roles)
    ensures ParseRoles(RolesToString(roles)).Some?
    ensures IsTokenValid(tokens, registerName, name, ParseRoles(RolesToString(roles)).value, now)
       <==> now < t0 + 720 * HOUR
  {
    ParseOfRolesToString(roles);
    NewTokenValidity(tokens, name, registerName, roles, t0, now);
    IsTokenValidExactly(tokens, registerName, name, roles, now);
  }

  // --- The store -----------------------------------------------------------------------------

  predicate HasName(tokens: seq<Token>, name: string) {
    exists i :: 0 <= i < |tokens| && tokens[i].name == name
  }

  lemma {:induction false} UpsertOfNewName(tokens: seq<Token>, t: Token)
    requires !HasName(tokens, t.name)
    ensures Upsert(tokens, t) == tokens + [t]
  {
    if tokens != [] {
      assert tokens[0].name != t.name;
      assert forall i :: 0 <= i < |tokens[1..]| ==> tokens[1..][i] == tokens[i + 1];
      UpsertOfNewName(tokens[1..], t);
      assert tokens == [tokens[0]] + tokens[1..];
    }
  }

  function Labelled(tokens: seq<Token>, registerName: string): seq<Token> {
    if tokens == [] then []
    else (if ClusterLabel(tokens[0]) == registerName then [tokens[0]] else []) + Labelled(tokens[1..], registerName)
  }

  function NotLabelled(tokens: seq<Token>, registerName: string): seq<Token> {
    if tokens == [] then []
    else (if ClusterLabel(tokens[0]) == registerName then [] else [tokens[0]]) + NotLabelled(tokens[1..], registerName)
  }

  lemma {:induction false} LabelledConcat(a: seq<Token>, b: seq<Token>, registerName: string)
    ensures Labelled(a + b, registerName) == Labelled(a, registerName) + Labelled(b, registerName)
  {
    if a == [] {
      assert a + b == b;
    } else {
      LabelledConcat(a[1..], b, registerName);
      assert (a + b)[0] == a[0] && (a + b)[1..] == a[1..] + b;
      var head := if ClusterLabel(a[0]) == registerName then [a[0]] else [];
      ConcatAssociates(head, Labelled(a[1..], registerName), Labelled(b, registerName));
    }
  }

  lemma {:induction false} NotLabelledConcat(a: seq<Token>, b: seq<Token>, registerName: string)
    ensures NotLabelled(a + b, registerName) == NotLabelled(a, registerName) + NotLabelled(b, registerName)
  {
    if a == [] {
      assert a + b == b;
    } else {
      NotLabelledConcat(a[1..], b, registerName);
      assert (a + b)[0] == a[0] && (a + b)[1..] == a[1..] + b;
      var head := if ClusterLabel(a[0]) == registerName then [] else [a[0]];
      ConcatAssociates(head, NotLabelled(a[1..], registerName), NotLabelled(b, registerName));
    }
  }

  lemma {:induction false} OtherLabel(tokens: seq<Token>, own: string, other: string)
    requires own != other
    ensures Labelled(NotLabelled(tokens, own), other) == Labelled(tokens, other)
  {
    if tokens != [] {
      OtherLabel(tokens[1..], own, other);
      var head := if ClusterLabel(tokens[0]) == own then [] else [tokens[0]];
      LabelledConcat(head, NotLabelled(tokens[1..], own), other);
    }
  }

  lemma {:induction false} FirstLabelledFound(tokens: seq<Token>, registerName: string)
    ensures FirstLabelled(tokens, registerName).None? <==> Labelled(tokens, registerName) == []
    ensures FirstLabelled(tokens, registerName).Some? ==> HasName(tokens, FirstLabelled(tokens, registerName).value)
  {
    if tokens != [] && ClusterLabel(tokens[0]) != registerName {
      FirstLabelledFound(tokens[1..], registerName);
      if FirstLabelled(tokens, registerName).Some? {
        var i :| 0 <= i < |tokens[1..]| && tokens[1..][i].name == FirstLabelled(tokens, registerName).value;
        assert tokens[i + 1].name == FirstLabelled(tokens, registerName).value;
      }
    }
  }

  lemma DeleteByNameUnique(tokens: seq<Token>, name: string)
    requires UniqueNames(tokens)
    ensures UniqueNames(DeleteByName(tokens, name))
    ensures forall t :: t in DeleteByName(tokens, name) ==> t in tokens
  {
  }

  lemma DeleteOneUnique(tokens: seq<Token>, registerName: string)
    requires UniqueNames(tokens)
    ensures UniqueNames(DeleteOneLabelled(tokens, registerName))
    ensures forall t :: t in DeleteOneLabelled(tokens, registerName) ==> t in tokens
  {
    if FirstLabelled(tokens, registerName).Some? {
      DeleteByNameUnique(tokens, FirstLabelled(tokens, registerName).value);
    }
  }

  lemma WithoutStep(head: Token, tail: seq<Token>, i: nat)
    ensures Without([head] + tail, i + 1) == [head] + Without(tail, i)
  {
  }

  lemma DeleteByNameStep(head: Token, tail: seq<Token>, name: string)
    requires head.name != name
    ensures DeleteByName([head] + tail, name) == [head] + DeleteByName(tail, name)
  {
    assert ([head] + tail)[1..] == tail;
    assert IndexOf([head] + tail, name) == IndexOf(tail, name) + 1;
    WithoutStep(head, tail, IndexOf(tail, name));
  }

  lemma DeleteOneStep(tokens: seq<Token>, registerName: string)
    requires UniqueNames(tokens) && tokens != []
    ensures DeleteOneLabelled(tokens, registerName) ==
            if ClusterLabel(tokens[0]) == registerName then tokens[1..]
            else [tokens[0]] + DeleteOneLabelled(tokens[1..], registerName)
  {
    var tail := tokens[1..];
    assert tokens == [tokens[0]] + tail;
    if ClusterLabel(tokens[0]) == registerName {
      assert IndexOf(tokens, tokens[0].name) == 0;
    } else if FirstLabelled(tail, registerName).Some? {
      FirstLabelledFound(tail, registerName);
      var name := FirstLabelled(tail, registerName).value;
      var i :| 0 <= i < |tail| && tail[i].name == name;
      assert tokens[0].name != tokens[i + 1].name;
      DeleteByNameStep(tokens[0], tail, name);
    }
  }

  /** One call removes exactly one token of the label if there is any, keeps the order of the rest of that
      label, and touches no other label. */
  lemma {:induction false} DeleteOneAccounting(tokens: seq<Token>, registerName: string)
    requires UniqueNames(tokens)
    ensures var rest := DeleteOneLabelled(tokens, registerName);
            && NotLabelled(rest, registerName) == NotLabelled(tokens, registerName)
            && Labelled(rest, registerName) ==
               (if Labelled(tokens, registerName) == [] then [] else Labelled(tokens, registerName)[1..])
  {
    if tokens != [] {
      DeleteOneStep(tokens, registerName);
      if ClusterLabel(tokens[0]) != registerName {
        DeleteOneAccounting(tokens[1..], registerName);
      }
    }
  }

  function DeleteTimes(tokens: seq<Token>, registerName: string, k: nat): seq<Token> {
    if k == 0 then tokens else DeleteOneLabelled(DeleteTimes(tokens, registerName, k - 1), registerName)
  }

  /** All but the first k. */
  function Beyond(tokens: seq<Token>, k: nat): seq<Token> {
    if k < |tokens| then tokens[k..] else []
  }

  lemma BeyondStep(tokens: seq<Token>, k: nat)
    requires k > 0
    ensures var rest := Beyond(tokens, k - 1);
            Beyond(tokens, k) == if rest == [] then [] else rest[1..]
  {
  }

  /** k deregistrations remove the first min(k, n) of n tokens with the label. */
  lemma {:induction false} DeleteTimesAccounting(tokens: seq<Token>, registerName: string, k: nat)
    requires UniqueNames(tokens)
    ensures var rest := DeleteTimes(tokens, registerName, k);
            && UniqueNames(rest)
            && NotLabelled(rest, registerName) == NotLabelled(tokens, registerName)
            && Labelled(rest, registerName) == Beyond(Labelled(tokens, registerName), k)
  {
    if k > 0 {
      DeleteTimesAccounting(tokens, registerName, k - 1);
      BeyondStep(Labelled(tokens, registerName), k);
      DeleteOneUnique(DeleteTimes(tokens, registerName, k - 1), registerName);
      DeleteOneAccounting(DeleteTimes(tokens, registerName, k - 1), registerName);
    }
  }
}
