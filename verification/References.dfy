/** ConfigMap references in HelmReleases and Apps (internal/pkg/teleport/app_manager.go). */
module References {
  import opened Prelude

  /** A Go slice: nil and the empty slice are different values. */
  datatype Slice<+T> = Nil | Elems(elems: seq<T>)

  function Items<T>(s: Slice<T>): seq<T> {
    match s
    case Nil => []
    case Elems(elems) => elems
  }

  function AppendReference<T(==)>(refs: Slice<T>, ref: T): Slice<T> {
    if ref in Items(refs) then refs else Elems(Items(refs) + [ref])
  }

  /** The result is never nil, even for a nil list. */
  function RemoveReference<T(==)>(refs: Slice<T>, ref: T): Slice<T> {
    Elems(Discard(Items(refs), {ref}))
  }

  method AppendReferenceLoop<T(==)>(refs: Slice<T>, ref: T) returns (result: Slice<T>)
    ensures result == AppendReference(refs, ref)
  {
    var items := Items(refs);
    for i := 0 to |items|
      invariant ref !in items[..i]
    {
      if items[i] == ref {
        return refs;
      }
    }
    return Elems(items + [ref]);
  }

  method RemoveReferenceLoop<T(==)>(refs: Slice<T>, ref: T) returns (result: Slice<T>)
    ensures result == RemoveReference(refs, ref)
  {
    var items := Items(refs);
    var kept: seq<T> := [];
    for i := 0 to |items|
      invariant Discard(items, {ref}) == kept + Discard(items[i..], {ref})
    {
      assert items[i..][1..] == items[i + 1..];
      if items[i] != ref {
        kept := kept + [items[i]];
      }
    }
    return Elems(kept);
  }

  // --- The two resource kinds ----------------------------------------------------------------

  /** A reference in spec.valuesFrom, or any other entry. */
  datatype ValuesRef = ValuesRef(kind: string, name: string, valuesKey: string) | OtherEntry(content: string)

  datatype ExtraConfig = ExtraConfig(kind: string, name: string, ns: string, priority: int)

  datatype HelmSpec = HelmSpec(chartVersion: string, valuesFrom: Slice<ValuesRef>)

  /** history holds the chartVersion of each status.history entry, latest first; "" where there is none. */
  datatype HelmRelease = HelmRelease(history: seq<string>, spec: Option<HelmSpec>)

  datatype App = App(version: string, extraConfigs: Slice<ExtraConfig>)

  function HelmReference(configMapName: string): ValuesRef {
    ValuesRef("ConfigMap", configMapName, "values")
  }

  function AppReference(configMapName: string, ns: string): ExtraConfig {
    ExtraConfig("configMap", configMapName, ns, 25)
  }

  function GetValuesFrom(hr: HelmRelease): Slice<ValuesRef> {
    match hr.spec
    case None => Nil
    case Some(spec) => spec.valuesFrom
  }

  function SetValuesFrom(hr: HelmRelease, valuesFrom: Slice<ValuesRef>): HelmRelease {
    var spec := match hr.spec case None => HelmSpec("", Nil) case Some(spec) => spec;
    hr.(spec := Some(spec.(valuesFrom := valuesFrom)))
  }

  function InstalledChartVersion(hr: HelmRelease): string {
    if hr.history == [] then "" else hr.history[0]
  }

  function SpecChartVersion(hr: HelmRelease): string {
    match hr.spec
    case None => ""
    case Some(spec) => spec.chartVersion
  }

  /** The installed version wins over the requested one. */
  function HelmChartVersion(hr: HelmRelease): string {
    if InstalledChartVersion(hr) != "" then InstalledChartVersion(hr) else SpecChartVersion(hr)
  }

  datatype Kind = HelmKind | AppKind

  /** The list after DeleteConfig: only the App manager returns early on a nil list. */
  function AfterDelete<T(==)>(kind: Kind, refs: Slice<T>, ref: T): Slice<T> {
    if kind.AppKind? && refs.Nil? then refs else RemoveReference(refs, ref)
  }

  // --- One list shared by many clusters --------------------------------------------------------

  datatype Op<T> = Ensure(ref: T) | Delete(ref: T)

  function Apply<T(==)>(kind: Kind, refs: Slice<T>, op: Op<T>): Slice<T> {
    match op
    case Ensure(ref) => AppendReference(refs, ref)
    case Delete(ref) => AfterDelete(kind, refs, ref)
  }

  function ApplyAll<T(==)>(kind: Kind, refs: Slice<T>, ops: seq<Op<T>>): Slice<T> {
    if ops == [] then refs else Apply(kind, ApplyAll(kind, refs, ops[..|ops| - 1]), ops[|ops| - 1])
  }

  /** When the current membership of `ref` began: its first Ensure since its last Delete. */
  function Since<T(==)>(ops: seq<Op<T>>, ref: T): (r: Option<nat>)
    ensures r.Some? ==> r.value < |ops|
  {
    if ops == [] then None
    else
      var before := ops[..|ops| - 1];
      var last := ops[|ops| - 1];
      if last == Delete(ref) then None
      else if last == Ensure(ref) && Since(before, ref).None? then Some(|ops| - 1)
      else Since(before, ref)
  }

  /** -1 when `ref` is not a member. */
  function Start<T(==)>(ops: seq<Op<T>>, ref: T): int {
    match Since(ops, ref) case None => -1 case Some(i) => i
  }

  predicate Increasing<T(==)>(ops: seq<Op<T>>, refs: seq<T>) {
    forall i, j :: 0 <= i < j < |refs| ==> Start(ops, refs[i]) < Start(ops, refs[j])
  }

  /** `live` lists exactly the references whose last operation is Ensure, by start of membership (so each once). */
  ghost predicate InOrderOfEnsure<T(!new)>(ops: seq<Op<T>>, live: seq<T>) {
    && (forall ref :: ref in live <==> Since(ops, ref).Some?)
    && Increasing(ops, live)
  }

  lemma {:induction false} DiscardIncreasing<T>(ops: seq<Op<T>>, refs: seq<T>, drop: set<T>)
    requires Increasing(ops, refs)
    ensures Increasing(ops, Discard(refs, drop))
  {
    if refs != [] {
      assert forall i :: 0 <= i < |refs[1..]| ==> refs[1..][i] == refs[i + 1];
      DiscardIncreasing(ops, refs[1..], drop);
      var tail := Discard(refs[1..], drop);
      forall i | 0 <= i < |tail| ensures Start(ops, refs[0]) < Start(ops, tail[i]) {
        DiscardMember(refs[1..], drop, tail[i]);
        assert tail[i] in tail;
        var j :| 0 <= j < |refs[1..]| && refs[1..][j] == tail[i];
        assert refs[j + 1] == tail[i];
      }
      if refs[0] !in drop {
        assert Discard(refs, drop) == [refs[0]] + tail;
      }
    }
  }

  lemma SinceStep<T>(ops: seq<Op<T>>, op: Op<T>, ref: T)
    ensures Since(ops + [op], ref) ==
            if op == Delete(ref) then None
            else if op == Ensure(ref) && Since(ops, ref).None? then Some(|ops|)
            else Since(ops, ref)
  {
    var all := ops + [op];
    assert all[..|all| - 1] == ops;
  }

  lemma DeleteStep<T(!new)>(ops: seq<Op<T>>, live: seq<T>, ref: T)
    requires InOrderOfEnsure(ops, live)
    ensures InOrderOfEnsure(ops + [Delete(ref)], Discard(live, {ref}))
  {
    var all, next := ops + [Delete(ref)], Discard(live, {ref});
    forall x ensures x in next <==> Since(all, x).Some? {
      SinceStep(ops, Delete(ref), x);
      DiscardMember(live, {ref}, x);
    }
    DiscardIncreasing(ops, live, {ref});
    forall x | x in next ensures Start(all, x) == Start(ops, x) {
      SinceStep(ops, Delete(ref), x);
      DiscardMember(live, {ref}, x);
    }
    assert forall i :: 0 <= i < |next| ==> next[i] in next;
  }

  lemma EnsureStep<T(!new)>(ops: seq<Op<T>>, live: seq<T>, ref: T)
    requires InOrderOfEnsure(ops, live)
    ensures InOrderOfEnsure(ops + [Ensure(ref)], if ref in live then live else live + [ref])
  {
    var all, next := ops + [Ensure(ref)], if ref in live then live else live + [ref];
    forall x ensures x in next <==> Since(all, x).Some? {
      SinceStep(ops, Ensure(ref), x);
    }
    forall x | x in live ensures Start(all, x) == Start(ops, x) < |ops| {
      SinceStep(ops, Ensure(ref), x);
    }
    SinceStep(ops, Ensure(ref), ref);
    assert forall i :: 0 <= i < |live| ==> live[i] in live;
  }

  /** After any interleaving of EnsureConfig and DeleteConfig, a list that started with foreign entries only is
      those entries in their order, followed by the live references in order of first ensure since their last
      delete. */
  lemma {:induction false} SharedListIsOrderedSet<T(!new)>(kind: Kind, start: Slice<T>, ops: seq<Op<T>>)
      returns (live: seq<T>)
    requires forall i :: 0 <= i < |ops| ==> ops[i].ref !in Items(start)
    ensures InOrderOfEnsure(ops, live)
    ensures Items(ApplyAll(kind, start, ops)) == Items(start) + live
  {
    if ops == [] {
      live := [];
    } else {
      var before, op := ops[..|ops| - 1], ops[|ops| - 1];
      assert ops == before + [op];
      var previous := SharedListIsOrderedSet(kind, start, before);
      match op {
        case Ensure(ref) =>
          EnsureStep(before, previous, ref);
          live := if ref in previous then previous else previous + [ref];
        case Delete(ref) =>
          DeleteStep(before, previous, ref);
          live := Discard(previous, {ref});
          DiscardConcat(Items(start), previous, {ref});
          DiscardNothing(Items(start), {ref});
          DiscardOfAbsent(kind, ApplyAll(kind, start, before), ref);
      }
    }
  }

  lemma DiscardOfAbsent<T>(kind: Kind, refs: Slice<T>, ref: T)
    ensures Items(AfterDelete(kind, refs, ref)) == Discard(Items(refs), {ref})
  {
  }

  /** Repeating an operation writes nothing: the second list equals the first, nil-ness included. A HelmRelease
      with a nil list is written once by a delete, and only once. */
  lemma RepeatWritesNothing<T>(kind: Kind, refs: Slice<T>, op: Op<T>)
    ensures Apply(kind, Apply(kind, refs, op), op) == Apply(kind, refs, op)
    ensures op.Delete? && refs.Nil? ==> (Apply(kind, refs, op) != refs <==> kind.HelmKind?)
  {
    match op {
      case Ensure(ref) =>
      case Delete(ref) =>
        DiscardTwice(Items(refs), {ref}, {ref});
        assert {ref} + {ref} == {ref};
    }
  }

  /** Rewriting the references never changes the chart version a HelmRelease reports. */
  lemma SetValuesFromKeepsVersion(hr: HelmRelease, refs: Slice<ValuesRef>)
    ensures HelmChartVersion(SetValuesFrom(hr, refs)) == HelmChartVersion(hr)
    ensures GetValuesFrom(SetValuesFrom(hr, refs)) == refs
  {
  }
}
