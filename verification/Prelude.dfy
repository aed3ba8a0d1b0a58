/** Shared vocabulary: optional values, filtering of lists, splitting and joining of strings. */
module Prelude {

  datatype Option<+T> = None | Some(value: T) {
    predicate IsFailure() {
      None?
    }

    function PropagateFailure<U>(): Option<U>
      requires None?
    {
      None
    }

    function Extract(): T
      requires Some?
    {
      value
    }
  }

  function Lookup<K, V>(m: map<K, V>, k: K): Option<V> {
    if k in m then Some(m[k]) else None
  }

  lemma ConcatAssociates<T>(a: seq<T>, b: seq<T>, c: seq<T>)
    ensures a + (b + c) == a + b + c
  {
  }

  // --- Lists -------------------------------------------------------------------------------

  /** The elements of `s` that are not in `drop`, in their order. */
  function Discard<T(==)>(s: seq<T>, drop: set<T>): seq<T> {
    if s == [] then []
    else (if s[0] in drop then [] else [s[0]]) + Discard(s[1..], drop)
  }

  lemma {:induction false} DiscardMember<T>(s: seq<T>, drop: set<T>, x: T)
    ensures x in Discard(s, drop) <==> x in s && x !in drop
  {
    if s != [] {
      DiscardMember(s[1..], drop, x);
    }
  }

  lemma {:induction false} DiscardConcat<T>(a: seq<T>, b: seq<T>, drop: set<T>)
    ensures Discard(a + b, drop) == Discard(a, drop) + Discard(b, drop)
  {
    if a == [] {
      assert a + b == b;
    } else {
      DiscardConcat(a[1..], b, drop);
      assert (a + b)[0] == a[0] && (a + b)[1..] == a[1..] + b;
      var head := if a[0] in drop then [] else [a[0]];
      ConcatAssociates(head, Discard(a[1..], drop), Discard(b, drop));
    }
  }

  lemma {:induction false} DiscardTwice<T>(s: seq<T>, d: set<T>, e: set<T>)
    ensures Discard(Discard(s, d), e) == Discard(s, d + e)
  {
    if s != [] {
      DiscardTwice(s[1..], d, e);
      var head := if s[0] in d then [] else [s[0]];
      DiscardConcat(head, Discard(s[1..], d), e);
      assert Discard([s[0]], e) == if s[0] in e then [] else [s[0]];
    }
  }

  lemma {:induction false} DiscardNothing<T>(s: seq<T>, drop: set<T>)
    requires forall x <- s :: x !in drop
    ensures Discard(s, drop) == s
  {
    if s != [] {
      assert forall x <- s[1..] :: x in s;
      DiscardNothing(s[1..], drop);
    }
  }

  predicate Distinct<T(==)>(s: seq<T>) {
    forall i, j :: 0 <= i < j < |s| ==> s[i] != s[j]
  }

  // --- Strings -----------------------------------------------------------------------------

  /** strings.Split for a one-character separator. */
  function Split(s: string, sep: char): (parts: seq<string>)
    ensures |parts| > 0
  {
    if s == [] then [""]
    else
      var rest := Split(s[1..], sep);
      if s[0] == sep then [""] + rest
      else [[s[0]] + rest[0]] + rest[1..]
  }

  /** strings.Join for a one-character separator. */
  function Join(parts: seq<string>, sep: char): string {
    if parts == [] then ""
    else if |parts| == 1 then parts[0]
    else parts[0] + [sep] + Join(parts[1..], sep)
  }

  /** The parts are the stretches between separators. */
  lemma {:induction false} JoinOfSplit(s: string, sep: char)
    ensures Join(Split(s, sep), sep) == s
    ensures forall part :: part in Split(s, sep) ==> sep !in part
  {
    if s != [] {
      var rest := Split(s[1..], sep);
      JoinOfSplit(s[1..], sep);
      assert s == [s[0]] + s[1..];
      if s[0] == sep {
        assert ([""] + rest)[1..] == rest;
      } else {
        var first := [s[0]] + rest[0];
        assert rest[0] in rest && sep !in first;
        assert ([first] + rest[1..])[1..] == rest[1..];
        if |rest| > 1 {
          assert Join(rest, sep) == rest[0] + [sep] + Join(rest[1..], sep);
        }
      }
    }
  }

  lemma {:induction false} SplitSingle(s: string, sep: char)
    requires sep !in s
    ensures Split(s, sep) == [s]
  {
    if s != [] {
      SplitSingle(s[1..], sep);
      assert [s[0]] + s[1..] == s;
    }
  }

  lemma {:induction false} SplitAt(a: string, sep: char, b: string)
    requires sep !in a
    ensures Split(a + [sep] + b, sep) == [a] + Split(b, sep)
  {
    if a == [] {
      assert (a + [sep] + b)[1..] == b;
    } else {
      assert (a + [sep] + b)[1..] == a[1..] + [sep] + b;
      SplitAt(a[1..], sep, b);
      var rest := Split(b, sep);
      assert ([a[1..]] + rest)[0] == a[1..] && ([a[1..]] + rest)[1..] == rest;
      assert [a[0]] + a[1..] == a;
    }
  }

  lemma {:induction false} SplitOfJoin(parts: seq<string>, sep: char)
    requires parts != []
    requires forall p :: p in parts ==> sep !in p
    ensures Split(Join(parts, sep), sep) == parts
  {
    assert parts[0] in parts;
    if |parts| == 1 {
      SplitSingle(parts[0], sep);
    } else {
      SplitOfJoin(parts[1..], sep);
      SplitAt(parts[0], sep, Join(parts[1..], sep));
    }
  }

  function TrimPrefix(s: string, prefix: string): string {
    if prefix <= s then s[|prefix|..] else s
  }
}
