/** What EnsureReference and DeleteReference leave in the HelmRelease or App of a resource. */
module Injection {
  import opened Prelude
  import opened Keys
  import opened References
  import opened Environment
  import opened Machine
  import opened Effects
  import opened Steps

  /** The reference is in the list of the preferred resource, if there is a resource at all. */
  predicate Referenced(w: World, resource: Key, name: string) {
    if resource in w.helmReleases then HelmReference(name) in Items(GetValuesFrom(w.helmReleases[resource]))
    else if resource in w.apps then AppReference(name, resource.ns) in Items(w.apps[resource].extraConfigs)
    else true
  }

  /** The resources after EnsureReference, with no word about calls. */
  function WithReference(w: World, resource: Key, name: string): World {
    if resource in w.helmReleases then
      var hr := w.helmReleases[resource];
      var refs := AppendReference(GetValuesFrom(hr), HelmReference(name));
      w.(helmReleases := w.helmReleases[resource := SetValuesFrom(hr, refs)])
    else if resource in w.apps then
      var app := w.apps[resource];
      var refs := AppendReference(app.extraConfigs, AppReference(name, resource.ns));
      w.(apps := w.apps[resource := app.(extraConfigs := refs)])
    else w
  }

  /** The resources after DeleteReference. */
  function WithoutReference(w: World, resource: Key, name: string): World {
    if resource in w.helmReleases then
      var hr := w.helmReleases[resource];
      var refs := AfterDelete(HelmKind, GetValuesFrom(hr), HelmReference(name));
      w.(helmReleases := w.helmReleases[resource := SetValuesFrom(hr, refs)])
    else if resource in w.apps then
      var app := w.apps[resource];
      var refs := AfterDelete(AppKind, app.extraConfigs, AppReference(name, resource.ns));
      w.(apps := w.apps[resource := app.(extraConfigs := refs)])
    else w
  }

  lemma SetSameValuesFrom(hr: HelmRelease)
    requires hr.spec.Some?
    ensures SetValuesFrom(hr, GetValuesFrom(hr)) == hr
  {
  }

  /** Same objects up to time and the count of writes. */
  predicate SameState(w: World, v: World) {
    SameObjects(w, v) && SameTokens(w, v)
  }

  lemma ManagerKind(w: World, resource: Key, name: string)
    ensures var r := NewTeleportAppConfigManager(w, resource, name);
            && OnlyLater(w, r.w)
            && (r.Ok? ==> r.value == if resource in w.helmReleases then HelmReleaseManager(resource, name)
                                     else if resource in w.apps then AppManager(resource, name)
                                     else NoOpManager)
  {
    CallOnlyLater(w);
    if Call(w).Ok? {
      CallOnlyLater(Call(w).w);
    }
  }

  lemma PutHelmRelease(w: World, k: Key, hr: HelmRelease)
    requires k in w.helmReleases
    ensures var r := UpdateHelmRelease(w, k, hr);
            && Later(w, r.w) && SameState(if r.Ok? then w.(helmReleases := w.helmReleases[k := hr]) else w, r.w)
            && r.w.writes == (if r.Ok? then w.writes + 1 else w.writes)
  {
  }

  lemma PutApp(w: World, k: Key, app: App)
    requires k in w.apps
    ensures var r := UpdateApp(w, k, app);
            && Later(w, r.w) && SameState(if r.Ok? then w.(apps := w.apps[k := app]) else w, r.w)
            && r.w.writes == (if r.Ok? then w.writes + 1 else w.writes)
  {
  }

  /** The step leaves either the old resources or those of `target`, and on success the latter; it writes only
      if the two differ, and then at most once. */
  predicate Injects(w: World, r: Run<()>, target: World) {
    && Later(w, r.w)
    && (if r.Ok? then SameState(target, r.w) else SameState(w, r.w))
    && w.writes <= r.w.writes <= w.writes + 1
    && (SameState(w, target) ==> r.w.writes == w.writes)
  }

  lemma HelmEnsure(w: World, resource: Key, name: string)
    requires resource in w.helmReleases
    ensures Injects(w, EnsureConfig(w, HelmReleaseManager(resource, name)), WithReference(w, resource, name))
  {
    var w1, hr := Call(w).w, w.helmReleases[resource];
    var before := GetValuesFrom(hr);
    var refs := AppendReference(before, HelmReference(name));
    CallOnlyLater(w);
    SetValuesFromKeepsVersion(hr, refs);
    if before == refs {
      SetSameValuesFrom(hr);
      assert w.helmReleases[resource := hr] == w.helmReleases;
    } else {
      PutHelmRelease(w1, resource, SetValuesFrom(hr, refs));
      assert w.helmReleases[resource := SetValuesFrom(hr, refs)][resource] == SetValuesFrom(hr, refs);
    }
  }

  lemma HelmDelete(w: World, resource: Key, name: string)
    requires resource in w.helmReleases
    ensures Injects(w, DeleteConfig(w, HelmReleaseManager(resource, name)), WithoutReference(w, resource, name))
  {
    var w1, hr := Call(w).w, w.helmReleases[resource];
    var before := GetValuesFrom(hr);
    var refs := RemoveReference(before, HelmReference(name));
    CallOnlyLater(w);
    SetValuesFromKeepsVersion(hr, refs);
    if before == refs {
      SetSameValuesFrom(hr);
      assert w.helmReleases[resource := hr] == w.helmReleases;
    } else {
      PutHelmRelease(w1, resource, SetValuesFrom(hr, refs));
      assert w.helmReleases[resource := SetValuesFrom(hr, refs)][resource] == SetValuesFrom(hr, refs);
    }
  }

  lemma AppEnsure(w: World, resource: Key, name: string)
    requires resource in w.apps && resource !in w.helmReleases
    ensures Injects(w, EnsureConfig(w, AppManager(resource, name)), WithReference(w, resource, name))
  {
    var w1, app := Call(w).w, w.apps[resource];
    var refs := AppendReference(app.extraConfigs, AppReference(name, resource.ns));
    CallOnlyLater(w);
    if app.extraConfigs == refs {
      assert w.apps[resource := app] == w.apps;
    } else {
      PutApp(w1, resource, app.(extraConfigs := refs));
      assert w.apps[resource := app.(extraConfigs := refs)][resource].extraConfigs == refs;
    }
  }

  lemma AppDelete(w: World, resource: Key, name: string)
    requires resource in w.apps && resource !in w.helmReleases
    ensures Injects(w, DeleteConfig(w, AppManager(resource, name)), WithoutReference(w, resource, name))
  {
    var w1, app := Call(w).w, w.apps[resource];
    var refs := AfterDelete(AppKind, app.extraConfigs, AppReference(name, resource.ns));
    CallOnlyLater(w);
    if app.extraConfigs == refs {
      assert w.apps[resource := app] == w.apps;
    } else {
      PutApp(w1, resource, app.(extraConfigs := refs));
      assert w.apps[resource := app.(extraConfigs := refs)][resource].extraConfigs == refs;
    }
  }

  /** A resource that is gone when its manager gets to it is an error for EnsureConfig and none for DeleteConfig; neither
      writes. */
  lemma MissingResource(w: World, m: Manager)
    requires w.script != []
    requires m.HelmReleaseManager? || m.AppManager?
    requires m.HelmReleaseManager? ==> m.resource !in w.helmReleases
    requires m.AppManager? ==> m.resource !in w.apps
    ensures EnsureConfig(w, m).Fail? && OnlyLater(w, EnsureConfig(w, m).w)
    ensures DeleteConfig(w, m).Ok? && OnlyLater(w, DeleteConfig(w, m).w)
  {
    CallOnlyLater(w);
  }

  lemma InjectsLater(w: World, w1: World, r: Run<()>, target: World, target1: World)
    requires OnlyLater(w, w1) && Injects(w1, r, target1) && SameState(target, target1)
    ensures Injects(w, r, target)
  {
  }

  /** EnsureReference appends the reference to the preferred resource unless it is there. */
  lemma EnsureReferenceEffect(w: World, resource: Key, name: string)
    ensures Injects(w, EnsureReference(w, resource, name), WithReference(w, resource, name))
  {
    var m := NewTeleportAppConfigManager(w, resource, name);
    ManagerKind(w, resource, name);
    if m.Ok? {
      if resource in w.helmReleases {
        HelmEnsure(m.w, resource, name);
      } else if resource in w.apps {
        AppEnsure(m.w, resource, name);
      }
      InjectsLater(w, m.w, EnsureReference(w, resource, name), WithReference(w, resource, name),
                   WithReference(m.w, resource, name));
    }
  }

  /** DeleteReference removes the reference from the preferred resource; a nil list of a HelmRelease becomes
      empty. */
  lemma DeleteReferenceEffect(w: World, resource: Key, name: string)
    ensures Injects(w, DeleteReference(w, resource, name), WithoutReference(w, resource, name))
  {
    var m := NewTeleportAppConfigManager(w, resource, name);
    ManagerKind(w, resource, name);
    if m.Ok? {
      if resource in w.helmReleases {
        HelmDelete(m.w, resource, name);
      } else if resource in w.apps {
        AppDelete(m.w, resource, name);
      }
      InjectsLater(w, m.w, DeleteReference(w, resource, name), WithoutReference(w, resource, name),
                   WithoutReference(m.w, resource, name));
    }
  }

  lemma WithReferenceIsReferenced(w: World, resource: Key, name: string)
    ensures Referenced(WithReference(w, resource, name), resource, name)
    ensures Referenced(w, resource, name) ==> WithReference(w, resource, name) == w
  {
    if resource in w.helmReleases {
      var hr := w.helmReleases[resource];
      SetValuesFromKeepsVersion(hr, AppendReference(GetValuesFrom(hr), HelmReference(name)));
      if Referenced(w, resource, name) {
        SetSameValuesFrom(hr);
        assert w.helmReleases[resource := hr] == w.helmReleases;
      }
    } else if resource in w.apps && Referenced(w, resource, name) {
      assert w.apps[resource := w.apps[resource]] == w.apps;
    }
  }
}
