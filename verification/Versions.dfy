/** Semantic versions and the two chart thresholds (internal/pkg/key/key.go).
    Parsing belongs to a library; the threshold functions take it as a parameter. */
module Versions {
  import opened Prelude

  /** A pre-release identifier: numeric or alphanumeric. */
  datatype Identifier = Numeric(n: nat) | Alpha(s: string)

  /** Build metadata is absent: precedence ignores it. */
  datatype Version = Version(major: nat, minor: nat, patch: nat, pre: seq<Identifier>)

  type Parser = string -> Option<Version>

  const NESTED_SINCE := Version(0, 11, 0, [])
  const BUNDLED_TELEPORT := Version(18, 7, 6, [])

  // --- Precedence, section 11 of Semantic Versioning 2.0.0 ---------------------------------

  function CompareInt(a: int, b: int): int {
    if a < b then -1 else if a > b then 1 else 0
  }

  function CompareString(a: string, b: string): int {
    if a == [] || b == [] then CompareInt(|a|, |b|)
    else if a[0] != b[0] then CompareInt(a[0] as int, b[0] as int)
    else CompareString(a[1..], b[1..])
  }

  function CompareIdentifier(a: Identifier, b: Identifier): int {
    match (a, b)
    case (Numeric(m), Numeric(n)) => CompareInt(m, n)
    case (Numeric(_), Alpha(_)) => -1
    case (Alpha(_), Numeric(_)) => 1
    case (Alpha(s), Alpha(t)) => CompareString(s, t)
  }

  function CompareIdentifiers(a: seq<Identifier>, b: seq<Identifier>): int {
    if a == [] || b == [] then CompareInt(|a|, |b|)
    else
      var head := CompareIdentifier(a[0], b[0]);
      if head != 0 then head else CompareIdentifiers(a[1..], b[1..])
  }

  /** A version without pre-release identifiers ranks above every pre-release of it. */
  function ComparePre(a: seq<Identifier>, b: seq<Identifier>): int {
    if a == [] || b == [] then CompareInt(|b|, |a|) else CompareIdentifiers(a, b)
  }

  function Compare(a: Version, b: Version): int {
    if a.major != b.major then CompareInt(a.major, b.major)
    else if a.minor != b.minor then CompareInt(a.minor, b.minor)
    else if a.patch != b.patch then CompareInt(a.patch, b.patch)
    else ComparePre(a.pre, b.pre)
  }

  lemma {:induction false} StringOrder(a: string, b: string, c: string)
    ensures CompareString(a, b) == 0 <==> a == b
    ensures CompareString(a, b) < 0 <==> CompareString(b, a) > 0
    ensures CompareString(a, b) <= 0 && CompareString(b, c) <= 0 ==> CompareString(a, c) <= 0
  {
    if a != [] && b != [] {
      assert a == [a[0]] + a[1..] && b == [b[0]] + b[1..];
      StringOrder(a[1..], b[1..], if c == [] then [] else c[1..]);
    }
  }

  lemma IdentifierOrder(a: Identifier, b: Identifier, c: Identifier)
    ensures CompareIdentifier(a, b) == 0 <==> a == b
    ensures CompareIdentifier(a, b) < 0 <==> CompareIdentifier(b, a) > 0
    ensures CompareIdentifier(a, b) <= 0 && CompareIdentifier(b, c) <= 0 ==> CompareIdentifier(a, c) <= 0
  {
    if a.Alpha? && b.Alpha? {
      StringOrder(a.s, b.s, if c.Alpha? then c.s else []);
    }
  }

  lemma {:induction false} IdentifiersOrder(a: seq<Identifier>, b: seq<Identifier>, c: seq<Identifier>)
    ensures CompareIdentifiers(a, b) == 0 <==> a == b
    ensures CompareIdentifiers(a, b) < 0 <==> CompareIdentifiers(b, a) > 0
    ensures CompareIdentifiers(a, b) <= 0 && CompareIdentifiers(b, c) <= 0 ==> CompareIdentifiers(a, c) <= 0
  {
    if a != [] && b != [] {
      assert a == [a[0]] + a[1..] && b == [b[0]] + b[1..];
      IdentifierOrder(a[0], b[0], a[0]);
      IdentifierOrder(b[0], a[0], b[0]);
      if c != [] {
        IdentifierOrder(a[0], b[0], c[0]);
        IdentifierOrder(b[0], c[0], a[0]);
        IdentifierOrder(a[0], c[0], b[0]);
      }
      IdentifiersOrder(a[1..], b[1..], if c == [] then [] else c[1..]);
    }
  }

  /** Precedence is a total order on versions. */
  lemma TotalOrder(a: Version, b: Version, c: Version)
    ensures Compare(a, b) == 0 <==> a == b
    ensures Compare(a, b) < 0 <==> Compare(b, a) > 0
    ensures Compare(a, b) <= 0 && Compare(b, c) <= 0 ==> Compare(a, c) <= 0
  {
    IdentifiersOrder(a.pre, b.pre, c.pre);
  }

  // --- Section 11 in its own words ------------------------------------------------------------

  /** Alphanumeric identifiers compare character by character. */
  predicate LexicallyLess(a: string, b: string) {
    a < b || exists i :: 0 <= i < |a| && i < |b| && a[..i] == b[..i] && a[i] < b[i]
  }

  predicate IdentifierLess(a: Identifier, b: Identifier) {
    match (a, b)
    case (Numeric(m), Numeric(n)) => m < n
    case (Numeric(_), Alpha(_)) => true
    case (Alpha(_), Numeric(_)) => false
    case (Alpha(s), Alpha(t)) => LexicallyLess(s, t)
  }

  /** The first difference decides; a longer list is higher if all the preceding identifiers are equal. */
  predicate IdentifiersLess(a: seq<Identifier>, b: seq<Identifier>) {
    a < b || exists i :: 0 <= i < |a| && i < |b| && a[..i] == b[..i] && IdentifierLess(a[i], b[i])
  }

  predicate NumbersLess(a: Version, b: Version) {
    || a.major < b.major
    || (a.major == b.major && a.minor < b.minor)
    || (a.major == b.major && a.minor == b.minor && a.patch < b.patch)
  }

  predicate Precedes(a: Version, b: Version) {
    || NumbersLess(a, b)
    || (a.major == b.major && a.minor == b.minor && a.patch == b.patch && a.pre != []
        && (b.pre == [] || IdentifiersLess(a.pre, b.pre)))
  }

  lemma {:induction false} LexicalExactly(a: string, b: string)
    ensures CompareString(a, b) < 0 <==> LexicallyLess(a, b)
  {
    if a != [] && b != [] {
      LexicalExactly(a[1..], b[1..]);
      assert a == [a[0]] + a[1..] && b == [b[0]] + b[1..];
      if a[0] == b[0] {
        if i :| 0 <= i < |a| && i < |b| && a[..i] == b[..i] && a[i] < b[i] {
          assert a[1..][..i - 1] == a[..i][1..] && b[1..][..i - 1] == b[..i][1..];
          assert a[1..][i - 1] < b[1..][i - 1];
        }
        if i :| 0 <= i < |a[1..]| && i < |b[1..]| && a[1..][..i] == b[1..][..i] && a[1..][i] < b[1..][i] {
          assert a[..i + 1] == [a[0]] + a[1..][..i] && b[..i + 1] == [b[0]] + b[1..][..i];
          assert a[i + 1] < b[i + 1];
        }
        assert a < b <==> a[1..] < b[1..];
      } else {
        assert a[0] < b[0] ==> a[..0] == b[..0] && a[0] < b[0];
        assert forall i :: 0 < i < |a| && i < |b| && a[..i] == b[..i] ==> a[..i][0] == b[..i][0];
      }
    }
  }

  lemma IdentifierExactly(a: Identifier, b: Identifier)
    ensures CompareIdentifier(a, b) < 0 <==> IdentifierLess(a, b)
    ensures CompareIdentifier(a, b) == 0 <==> a == b
  {
    IdentifierOrder(a, b, a);
    if a.Alpha? && b.Alpha? {
      LexicalExactly(a.s, b.s);
    }
  }

  lemma {:induction false} IdentifiersExactly(a: seq<Identifier>, b: seq<Identifier>)
    ensures CompareIdentifiers(a, b) < 0 <==> IdentifiersLess(a, b)
  {
    if a != [] && b != [] {
      IdentifiersExactly(a[1..], b[1..]);
      IdentifierExactly(a[0], b[0]);
      assert a == [a[0]] + a[1..] && b == [b[0]] + b[1..];
      if a[0] == b[0] {
        if i :| 0 <= i < |a| && i < |b| && a[..i] == b[..i] && IdentifierLess(a[i], b[i]) {
          IdentifierExactly(a[i], b[i]);
          assert i > 0;
          assert a[1..][..i - 1] == a[..i][1..] && b[1..][..i - 1] == b[..i][1..];
          assert IdentifierLess(a[1..][i - 1], b[1..][i - 1]);
        }
        if i :| 0 <= i < |a[1..]| && i < |b[1..]| && a[1..][..i] == b[1..][..i] && IdentifierLess(a[1..][i], b[1..][i]) {
          assert a[..i + 1] == [a[0]] + a[1..][..i] && b[..i + 1] == [b[0]] + b[1..][..i];
          assert IdentifierLess(a[i + 1], b[i + 1]);
        }
        assert a < b <==> a[1..] < b[1..];
      } else {
        assert IdentifierLess(a[0], b[0]) ==> a[..0] == b[..0] && IdentifierLess(a[0], b[0]);
        assert forall i :: 0 < i < |a| && i < |b| && a[..i] == b[..i] ==> a[..i][0] == b[..i][0];
      }
    }
  }

  /** The comparison is the precedence of section 11, no more and no less. */
  lemma PrecedenceExactly(a: Version, b: Version)
    ensures Compare(a, b) < 0 <==> Precedes(a, b)
    ensures Compare(a, b) == 0 <==> a == b
    ensures Compare(a, b) > 0 <==> Precedes(b, a)
  {
    TotalOrder(a, b, a);
    TotalOrder(b, a, b);
    IdentifiersExactly(a.pre, b.pre);
    IdentifiersExactly(b.pre, a.pre);
  }

  // --- Thresholds --------------------------------------------------------------------------

  /** Whether the chart reads its values nested; an unparseable version counts as the old chart. */
  predicate UsesNestedKubeAgentValues(parse: Parser, appVersion: string) {
    match parse(TrimPrefix(appVersion, "v"))
    case None => false
    case Some(v) => Compare(v, NESTED_SINCE) >= 0
  }

  /** The override for the nested block, or "" to leave it out. */
  function ResolveNestedTeleportVersionOverride(parse: Parser, teleportVersion: string): string {
    if teleportVersion == "" then ""
    else
      match parse(TrimPrefix(teleportVersion, "v"))
      case None => ""
      case Some(v) => if Compare(v, BUNDLED_TELEPORT) < 0 then "" else teleportVersion
  }

  /** A leading "v" does not count. */
  function Bare(version: string): string {
    if version != "" && version[0] == 'v' then version[1..] else version
  }

  lemma TrimIsBare(version: string)
    ensures TrimPrefix(version, "v") == Bare(version)
  {
  }

  /** 0.11.0 or later, on the components; a pre-release of 0.11.0 is earlier. */
  predicate SinceNested(v: Version) {
    v.major > 0 || v.minor > 11 || (v.minor == 11 && (v.patch > 0 || v.pre == []))
  }

  /** 18.7.6 or later. */
  predicate SinceBundled(v: Version) {
    || v.major > 18
    || (v.major == 18 && v.minor > 7)
    || (v.major == 18 && v.minor == 7 && v.patch > 6)
    || (v.major == 18 && v.minor == 7 && v.patch == 6 && v.pre == [])
  }

  lemma NestedExactly(parse: Parser, appVersion: string)
    ensures UsesNestedKubeAgentValues(parse, appVersion) <==>
              parse(Bare(appVersion)).Some? && SinceNested(parse(Bare(appVersion)).value)
  {
    TrimIsBare(appVersion);
    if parse(Bare(appVersion)).Some? {
      PrecedenceExactly(parse(Bare(appVersion)).value, NESTED_SINCE);
    }
  }

  lemma OverrideExactly(parse: Parser, teleportVersion: string)
    ensures ResolveNestedTeleportVersionOverride(parse, teleportVersion) ==
            if parse(Bare(teleportVersion)).Some? && SinceBundled(parse(Bare(teleportVersion)).value) then teleportVersion
            else ""
  {
    TrimIsBare(teleportVersion);
    if parse(Bare(teleportVersion)).Some? {
      PrecedenceExactly(parse(Bare(teleportVersion)).value, BUNDLED_TELEPORT);
    }
  }

  /** Upgrading the chart never goes back from the nested-only to the dual layout. */
  lemma NestedIsMonotone(parse: Parser, older: string, newer: string)
    requires parse(Bare(older)).Some? && parse(Bare(newer)).Some?
    requires !Precedes(parse(Bare(newer)).value, parse(Bare(older)).value)
    requires UsesNestedKubeAgentValues(parse, older)
    ensures UsesNestedKubeAgentValues(parse, newer)
  {
    NestedExactly(parse, older);
    NestedExactly(parse, newer);
  }

  /** Raising the configured version never loses the override. */
  lemma OverrideIsMonotone(parse: Parser, lower: string, higher: string)
    requires parse(Bare(lower)).Some? && parse(Bare(higher)).Some?
    requires !Precedes(parse(Bare(higher)).value, parse(Bare(lower)).value)
    requires ResolveNestedTeleportVersionOverride(parse, lower) != ""
    ensures ResolveNestedTeleportVersionOverride(parse, higher) == higher
  {
    OverrideExactly(parse, lower);
    OverrideExactly(parse, higher);
  }
}
