/** Whole runs: reconciles of any cluster, each stopped after any of its calls, with changes from outside in
    between. */
module Runs {
  import opened Prelude
  import opened Keys
  import opened Documents
  import opened Tokens
  import opened References
  import opened Environment
  import opened Machine
  import opened Effects
  import opened Steps
  import opened Registration
  import opened Progress
  import opened Convergence
  import opened Ownership
  import opened Isolation
  import opened IdentityGate
  import opened Removal
  import opened Reconciliation
  import Finalizers
  import opened Goal

  /** A reconcile request served with a script of calls, a change from outside, or a restart of the operator. */
  datatype Event = Reconciled(k: Key, script: seq<nat>) | Disturbed(next: World) | Restarted

  // --- The invariant -----------------------------------------------------------------------------------

  /** One cluster's share: what is stored is readable under its own name, and guarded by the finalizer. */
  ghost predicate Sound(cfg: Config, k: Key, w: World) {
    Readable(cfg, NamesOf(cfg, k), w) && Guarded(cfg, NamesOf(cfg, k), w)
  }

  ghost predicate AllSound(cfg: Config, keys: set<Key>, w: World) {
    forall k :: k in keys ==> Sound(cfg, k, w)
  }

  ghost predicate Inv(cfg: Config, keys: set<Key>, s: System) {
    FreshNames(cfg, s.world) && Connected(s.mem, s.world.now) && AllSound(cfg, keys, s.world)
  }

  /** The clusters of a run: names that need no escaping, and no two that interfere. */
  ghost predicate Apart(cfg: Config, keys: set<Key>) {
    && (forall k :: k in keys ==> WellFormed(cfg, NamesOf(cfg, k)))
    && (forall a, b :: a in keys && b in keys && a != b ==> !Interferes(cfg, a, b))
  }

  // --- Changes from outside ------------------------------------------------------------------------------

  /** Between reconciles the operator's Secret, ConfigMaps and references for a cluster may be deleted, but are not
      edited or forged; its finalizer is left alone; and no HelmRelease takes over an App that is in use. */
  predicate Tolerable(cfg: Config, k: Key, w: World, v: World) {
    var n := NamesOf(cfg, k);
    NothingAdded(cfg, n, w, v) && Uniform(cfg, n, v) && (Finalized(w, k) ==> Finalized(v, k))
  }

  /** Tokens may expire or be added under names the generator will not return. Everything else is free. */
  ghost predicate Disturbance(cfg: Config, keys: set<Key>, w: World, v: World) {
    && w.now <= v.now && v.issued == w.issued && FreshNames(cfg, v)
    && forall k :: k in keys ==> Tolerable(cfg, k, w, v)
  }

  ghost predicate Next(cfg: Config, keys: set<Key>, s: System, e: Event, t: System) {
    match e
    case Reconciled(k, script) =>
      && k in keys
      && var o := Reconcile(cfg, s.world.(script := script), s.mem, k);
         t == System(o.run.w, o.mem)
    case Disturbed(next) => Disturbance(cfg, keys, s.world, next) && t == System(next, s.mem)
    case Restarted => t == System(s.world, STARTED)
  }

  /** `states` are the states of a run along `events`. */
  ghost predicate Run(cfg: Config, keys: set<Key>, states: seq<System>, events: seq<Event>) {
    && |states| == |events| + 1
    && forall i :: 0 <= i < |events| ==> Next(cfg, keys, states[i], events[i], states[i + 1])
  }

  /** Before the operator first ran: nothing of it is stored, for any of the clusters. */
  ghost predicate Initial(cfg: Config, keys: set<Key>, s: System) {
    && FreshNames(cfg, s.world) && s.mem == STARTED
    && forall k :: k in keys ==> !Owned(cfg, NamesOf(cfg, k), s.world) && Uniform(cfg, NamesOf(cfg, k), s.world)
  }

  // --- The invariant is kept -----------------------------------------------------------------------------

  lemma NotFutureLater(cfg: Config, issued: nat, later: nat, name: string)
    requires NotFuture(cfg, issued, name) && issued <= later
    ensures NotFuture(cfg, later, name)
  {
  }

  lemma SurvivesReadable(cfg: Config, n: Names, w: World, v: World)
    requires Readable(cfg, n, w) && ObjectsSurvive(cfg, n, w, v) && w.issued <= v.issued
    ensures Readable(cfg, n, v)
  {
    if n.secret in v.secrets {
      NotFutureLater(cfg, w.issued, v.issued, v.secrets[n.secret][JOIN_TOKEN]);
    }
    if n.configMap in v.configMaps {
      NotFutureLater(cfg, w.issued, v.issued, GetTokenFromConfigMap(v.configMaps[n.configMap]).value);
    }
  }

  lemma UntouchedSurvives(cfg: Config, n: Names, w: World, v: World)
    requires Untouched(cfg, n, w, v)
    ensures NothingAdded(cfg, n, w, v) && (Uniform(cfg, n, w) ==> Uniform(cfg, n, v))
    ensures Finalized(w, n.cluster) ==> Finalized(v, n.cluster)
  {
  }

  /** Whatever adds nothing to a cluster and leaves its finalizer keeps it sound. */
  lemma SurvivalIsSound(cfg: Config, k: Key, w: World, v: World)
    requires Sound(cfg, k, w) && w.issued <= v.issued
    requires NothingAdded(cfg, NamesOf(cfg, k), w, v) && Uniform(cfg, NamesOf(cfg, k), v)
    requires Finalized(w, k) ==> Finalized(v, k)
    ensures Sound(cfg, k, v)
  {
    SurvivesReadable(cfg, NamesOf(cfg, k), w, v);
    NothingAddedOwned(cfg, NamesOf(cfg, k), w, v);
  }

  lemma LaterIsSound(cfg: Config, k: Key, w: World, v: World)
    requires Sound(cfg, k, w) && OnlyLater(w, v)
    ensures Sound(cfg, k, v)
  {
    SameReferencesSurvive(cfg, NamesOf(cfg, k), w, v);
    SurvivalIsSound(cfg, k, w, v);
  }

  lemma ManageIsSound(cfg: Config, w: World, k: Key, enabled: bool)
    requires WellFormed(cfg, NamesOf(cfg, k)) && FreshNames(cfg, w) && Sound(cfg, k, w) && k in w.clusters
    ensures Sound(cfg, k, Manage(cfg, w, k, w.clusters[k], RolesFor(enabled)).w)
  {
    var n, c := NamesOf(cfg, k), w.clusters[k];
    if c.deleting {
      DeregisterGuarded(cfg, n, w);
      DeregisterContained(cfg, n, w, c);
      SurvivesReadable(cfg, n, w, Deregister(cfg, w, n, c).w);
    } else {
      RolesForAreTokenRoles(enabled);
      RegisterGuarded(cfg, n, w, c, RolesFor(enabled));
      RegisterReaches(cfg, w, n, c, RolesFor(enabled));
    }
  }

  lemma OwnIsSound(cfg: Config, w: World, mem: Memory, k: Key)
    requires WellFormed(cfg, NamesOf(cfg, k)) && FreshNames(cfg, w) && Sound(cfg, k, w)
    ensures Sound(cfg, k, Reconcile(cfg, w, mem, k).run.w)
  {
    ReconcileStarts(cfg, w, mem, k);
    var o, enabled := Reconcile(cfg, w, mem, k), k in w.appsEnabled;
    if OnlyLater(w, o.run.w) {
      LaterIsSound(cfg, k, w, o.run.w);
    } else {
      var v :| OnlyLater(w, v) && k in w.clusters && o.run == Manage(cfg, v, k, w.clusters[k], RolesFor(enabled));
      LaterIsSound(cfg, k, w, v);
      SameFresh(cfg, w, v);
      ManageIsSound(cfg, v, k, enabled);
    }
  }

  lemma OtherIsSound(cfg: Config, w: World, mem: Memory, k: Key, other: Key)
    requires GoodGenerator(cfg) && FreshNames(cfg, w) && Sound(cfg, other, w)
    requires !Interferes(cfg, k, other)
    ensures Sound(cfg, other, Reconcile(cfg, w, mem, k).run.w)
  {
    var v := Reconcile(cfg, w, mem, k).run.w;
    ReconcileIsolated(cfg, w, mem, k, other);
    ReconcileContained(cfg, w, mem, k);
    UntouchedSurvives(cfg, NamesOf(cfg, other), w, v);
    SurvivalIsSound(cfg, other, w, v);
  }

  lemma ReconcileKeepsInv(cfg: Config, keys: set<Key>, s: System, k: Key)
    requires Apart(cfg, keys) && Inv(cfg, keys, s) && k in keys
    ensures var o := Reconcile(cfg, s.world, s.mem, k);
            Inv(cfg, keys, System(o.run.w, o.mem))
  {
    var w, o := s.world, Reconcile(cfg, s.world, s.mem, k);
    assert WellFormed(cfg, NamesOf(cfg, k));
    ReconcileContained(cfg, w, s.mem, k);
    ReconcileKeepsConnected(cfg, w, s.mem, k, o.run.w.now);
    forall other | other in keys ensures Sound(cfg, other, o.run.w) {
      assert Sound(cfg, other, w);
      if other == k {
        OwnIsSound(cfg, w, s.mem, k);
      } else {
        OtherIsSound(cfg, w, s.mem, k, other);
      }
    }
  }

  lemma ScriptKeepsInv(cfg: Config, keys: set<Key>, s: System, script: seq<nat>)
    requires Inv(cfg, keys, s)
    ensures Inv(cfg, keys, System(s.world.(script := script), s.mem))
  {
    forall k | k in keys ensures Sound(cfg, k, s.world.(script := script)) {
      assert Sound(cfg, k, s.world);
      SameReferencesSurvive(cfg, NamesOf(cfg, k), s.world, s.world.(script := script));
      SurvivalIsSound(cfg, k, s.world, s.world.(script := script));
    }
  }

  lemma DisturbanceKeepsInv(cfg: Config, keys: set<Key>, s: System, next: World)
    requires Inv(cfg, keys, s) && Disturbance(cfg, keys, s.world, next)
    ensures Inv(cfg, keys, System(next, s.mem))
  {
    forall k | k in keys ensures Sound(cfg, k, next) {
      assert Sound(cfg, k, s.world) && Tolerable(cfg, k, s.world, next);
      SurvivalIsSound(cfg, k, s.world, next);
    }
  }

  lemma NextKeepsInv(cfg: Config, keys: set<Key>, s: System, e: Event, t: System)
    requires Apart(cfg, keys) && Inv(cfg, keys, s) && Next(cfg, keys, s, e, t)
    ensures Inv(cfg, keys, t)
  {
    match e
    case Reconciled(k, script) =>
      ScriptKeepsInv(cfg, keys, s, script);
      ReconcileKeepsInv(cfg, keys, System(s.world.(script := script), s.mem), k);
    case Disturbed(next) =>
      DisturbanceKeepsInv(cfg, keys, s, next);
    case Restarted =>
  }

  lemma InitialInv(cfg: Config, keys: set<Key>, s: System)
    requires Initial(cfg, keys, s)
    ensures Inv(cfg, keys, s)
  {
    forall k | k in keys ensures Sound(cfg, k, s.world) {
      assert !Owned(cfg, NamesOf(cfg, k), s.world) && Uniform(cfg, NamesOf(cfg, k), s.world);
    }
  }

  /** The invariant holds in every state of every run. */
  lemma {:induction false} RunInvariant(cfg: Config, keys: set<Key>, states: seq<System>, events: seq<Event>, i: nat)
    requires Apart(cfg, keys) && Run(cfg, keys, states, events) && Initial(cfg, keys, states[0])
    requires i < |states|
    ensures Inv(cfg, keys, states[i])
  {
    if i == 0 {
      InitialInv(cfg, keys, states[0]);
    } else {
      RunInvariant(cfg, keys, states, events, i - 1);
      NextKeepsInv(cfg, keys, states[i - 1], events[i - 1], states[i]);
    }
  }

  // --- What it means -------------------------------------------------------------------------------------

  /** Finalizer safety: in every state of every run, a cluster without the finalizer has no Secret, ConfigMap or
      reference of the operator's left. */
  lemma FinalizerSafety(cfg: Config, keys: set<Key>, states: seq<System>, events: seq<Event>, i: nat, k: Key)
    requires Apart(cfg, keys) && Run(cfg, keys, states, events) && Initial(cfg, keys, states[0])
    requires i < |states| && k in keys
    ensures !Guards(states[i].world, k) ==> NothingLeft(cfg, k, states[i].world)
  {
    RunInvariant(cfg, keys, states, events, i);
    assert Sound(cfg, k, states[i].world);
    NothingLeftExactly(cfg, k, states[i].world);
  }

  /** In every state of every run, the stored register name is the computed one. */
  lemma StoredRegisterName(cfg: Config, keys: set<Key>, states: seq<System>, events: seq<Event>, i: nat, k: Key)
    requires Apart(cfg, keys) && Run(cfg, keys, states, events) && Initial(cfg, keys, states[0])
    requires i < |states| && k in keys
    ensures var configMaps := states[i].world.configMaps;
            AgentConfig(cfg, k) in configMaps ==>
              RegisterNameFromConfigMap(configMaps[AgentConfig(cfg, k)]) == Some(TeleportName(cfg, k))
  {
    NamesSpelledOut(cfg, k);
    RunInvariant(cfg, keys, states, events, i);
    assert Sound(cfg, k, states[i].world);
  }

  /** Convergence: after any run, one uninterrupted reconcile of a live cluster reaches the goal. */
  lemma RunConverges(cfg: Config, keys: set<Key>, states: seq<System>, events: seq<Event>, k: Key, script: seq<nat>)
    requires Apart(cfg, keys) && Run(cfg, keys, states, events) && Initial(cfg, keys, states[0]) && k in keys
    requires var w := states[|events|].world.(script := script);
             && k in w.clusters && !w.clusters[k].deleting
             && GateOpen(cfg, w, states[|events|].mem) && |script| >= GATE_CALLS + REGISTER_CALLS
    ensures var w := states[|events|].world.(script := script);
            var r := Reconcile(cfg, w, states[|events|].mem, k).run;
            && r.Ok? && Reached(cfg, k, r.w, k in w.appsEnabled, w.now)
            && Registered(cfg, NamesOf(cfg, k), r.w, RolesFor(k in w.appsEnabled), w.now)
  {
    var s := states[|events|];
    RunInvariant(cfg, keys, states, events, |events|);
    ScriptKeepsInv(cfg, keys, s, script);
    LiveReconcile(cfg, keys, System(s.world.(script := script), s.mem), k);
  }

  lemma LiveReconcile(cfg: Config, keys: set<Key>, s: System, k: Key)
    requires Apart(cfg, keys) && Inv(cfg, keys, s) && k in keys
    requires k in s.world.clusters && !s.world.clusters[k].deleting
    requires GateOpen(cfg, s.world, s.mem) && |s.world.script| >= GATE_CALLS + REGISTER_CALLS
    ensures var r := Reconcile(cfg, s.world, s.mem, k).run;
            && r.Ok? && Reached(cfg, k, r.w, k in s.world.appsEnabled, s.world.now)
            && Registered(cfg, NamesOf(cfg, k), r.w, RolesFor(k in s.world.appsEnabled), s.world.now)
  {
    assert Sound(cfg, k, s.world) && WellFormed(cfg, NamesOf(cfg, k));
    ReadableMeans(cfg, NamesOf(cfg, k), s.world);
    LiveReconcileExactly(cfg, s.world, s.mem, k);
  }

  /** Cleaning up: after any run, one uninterrupted reconcile of a cluster marked for deletion takes the finalizer
      off and leaves nothing of the operator's behind. */
  lemma RunCleansUp(cfg: Config, keys: set<Key>, states: seq<System>, events: seq<Event>, k: Key, script: seq<nat>)
    requires Apart(cfg, keys) && Run(cfg, keys, states, events) && Initial(cfg, keys, states[0]) && k in keys
    requires var w := states[|events|].world.(script := script);
             && k in w.clusters && w.clusters[k].deleting
             && GateOpen(cfg, w, states[|events|].mem) && |script| >= GATE_CALLS + DEREGISTER_CALLS
    ensures var w := states[|events|].world.(script := script);
            var r := Reconcile(cfg, w, states[|events|].mem, k).run;
            r.Ok? && Gone(cfg, k, r.w)
  {
    var s := states[|events|];
    RunInvariant(cfg, keys, states, events, |events|);
    ScriptKeepsInv(cfg, keys, s, script);
    var w := s.world.(script := script);
    assert Sound(cfg, k, w);
    DeletingReconcileExactly(cfg, w, s.mem, k);
  }

  /** The gate over all runs: whenever a reconcile gets past the gate, and only then does it touch anything, it
      leaves with a client that is non-nil and was built from the cached identity, which was at most 20 minutes old
      on arrival or has been read by this very reconcile. */
  lemma GateOverRuns(cfg: Config, keys: set<Key>, states: seq<System>, events: seq<Event>, k: Key, script: seq<nat>)
    requires Apart(cfg, keys) && Run(cfg, keys, states, events) && Initial(cfg, keys, states[0])
    ensures var w, mem := states[|events|].world.(script := script), states[|events|].mem;
            var o, arrival := Reconcile(cfg, w, mem, k), Arrival(cfg, w, mem, k);
            if arrival.None? || Gate(cfg, arrival.value.world, arrival.value.mem).run.Fail? then OnlyLater(w, o.run.w)
            else Admits(o.mem, arrival.value.world.now)
  {
    var s := states[|events|];
    var w := s.world.(script := script);
    RunInvariant(cfg, keys, states, events, |events|);
    ReconcileArrives(cfg, w, s.mem, k);
    var arrival := Arrival(cfg, w, s.mem, k);
    if arrival.Some? && Gate(cfg, arrival.value.world, arrival.value.mem).run.Ok? {
      GateAdmits(cfg, arrival.value.world, arrival.value.mem);
    }
  }

  // --- Shared lists --------------------------------------------------------------------------------------

  /** The names that the operator refers to in a resource on behalf of any of the clusters. */
  function OperatorNames(cfg: Config, keys: set<Key>, resource: Key): set<string> {
    set k, name | k in keys && name in OwnNames(cfg, NamesOf(cfg, k), resource) :: name
  }

  function OperatorHelmReferences(cfg: Config, keys: set<Key>, resource: Key): set<ValuesRef> {
    set name | name in OperatorNames(cfg, keys, resource) :: HelmReference(name)
  }

  function OperatorAppReferences(cfg: Config, keys: set<Key>, resource: Key): set<ExtraConfig> {
    set name | name in OperatorNames(cfg, keys, resource) :: AppReference(name, resource.ns)
  }

  /** A resource has the same foreign entries, in the same order. */
  predicate SameForeign(cfg: Config, keys: set<Key>, w: World, v: World, resource: Key) {
    && (resource in w.helmReleases <==> resource in v.helmReleases)
    && (resource in w.apps <==> resource in v.apps)
    && (resource in w.helmReleases ==>
          Discard(Items(GetValuesFrom(w.helmReleases[resource])), OperatorHelmReferences(cfg, keys, resource))
          == Discard(Items(GetValuesFrom(v.helmReleases[resource])), OperatorHelmReferences(cfg, keys, resource)))
    && (resource in w.apps ==>
          Discard(Items(w.apps[resource].extraConfigs), OperatorAppReferences(cfg, keys, resource))
          == Discard(Items(v.apps[resource].extraConfigs), OperatorAppReferences(cfg, keys, resource)))
  }

  lemma DiscardMore<T>(a: seq<T>, b: seq<T>, some: set<T>, all: set<T>)
    requires Discard(a, some) == Discard(b, some) && some <= all
    ensures Discard(a, all) == Discard(b, all)
  {
    DiscardTwice(a, some, all);
    DiscardTwice(b, some, all);
    assert some + all == all;
  }

  lemma OwnIsOperator(cfg: Config, keys: set<Key>, k: Key, resource: Key)
    requires k in keys
    ensures HelmReferences(cfg, NamesOf(cfg, k), resource) <= OperatorHelmReferences(cfg, keys, resource)
    ensures AppReferences(cfg, NamesOf(cfg, k), resource) <= OperatorAppReferences(cfg, keys, resource)
  {
  }

  lemma FootprintKeepsForeign(cfg: Config, keys: set<Key>, k: Key, w: World, v: World, resource: Key)
    requires k in keys && Footprint(cfg, NamesOf(cfg, k), w, v)
    ensures SameForeign(cfg, keys, w, v, resource)
  {
    var n := NamesOf(cfg, k);
    OwnIsOperator(cfg, keys, k, resource);
    if resource in w.helmReleases {
      var a, b := w.helmReleases[resource], v.helmReleases[resource];
      assert HelmAlike(cfg, n, resource, a, b);
      DiscardMore(Items(GetValuesFrom(a)), Items(GetValuesFrom(b)), HelmReferences(cfg, n, resource),
                  OperatorHelmReferences(cfg, keys, resource));
    }
    if resource in w.apps {
      var a, b := w.apps[resource], v.apps[resource];
      assert AppAlike(cfg, n, resource, a, b);
      DiscardMore(Items(a.extraConfigs), Items(b.extraConfigs), AppReferences(cfg, n, resource),
                  OperatorAppReferences(cfg, keys, resource));
    }
  }

  lemma NextKeepsForeign(cfg: Config, keys: set<Key>, s: System, e: Event, t: System, resource: Key)
    requires Apart(cfg, keys) && Inv(cfg, keys, s) && Next(cfg, keys, s, e, t)
    requires e.Disturbed? ==> SameForeign(cfg, keys, s.world, t.world, resource)
    ensures SameForeign(cfg, keys, s.world, t.world, resource)
  {
    match e
    case Reconciled(k, script) =>
      var w := s.world.(script := script);
      assert WellFormed(cfg, NamesOf(cfg, k));
      ReconcileContained(cfg, w, s.mem, k);
      FootprintKeepsForeign(cfg, keys, k, w, t.world, resource);
      assert SameForeign(cfg, keys, s.world, w, resource);
    case Disturbed(_) =>
    case Restarted =>
  }

  /** Over whole runs the operator leaves foreign entries alone: unless they are changed from outside, a resource,
      that of the shared bot included, has its foreign entries in their original order in every state. */
  lemma {:induction false} RunKeepsForeign(cfg: Config, keys: set<Key>, states: seq<System>, events: seq<Event>, i: nat,
                                           resource: Key)
    requires Apart(cfg, keys) && Run(cfg, keys, states, events) && Initial(cfg, keys, states[0])
    requires i < |states|
    requires forall j :: 0 <= j < i && events[j].Disturbed? ==>
               SameForeign(cfg, keys, states[j].world, states[j + 1].world, resource)
    ensures SameForeign(cfg, keys, states[0].world, states[i].world, resource)
  {
    if i > 0 {
      RunKeepsForeign(cfg, keys, states, events, i - 1, resource);
      RunInvariant(cfg, keys, states, events, i - 1);
      NextKeepsForeign(cfg, keys, states[i - 1], events[i - 1], states[i], resource);
    }
  }

  // --- Foreign finalizers ----------------------------------------------------------------------------------

  lemma NextKeepsFinalizers(cfg: Config, keys: set<Key>, s: System, e: Event, t: System, k: Key)
    requires Apart(cfg, keys) && Inv(cfg, keys, s) && Next(cfg, keys, s, e, t) && !e.Disturbed?
    ensures Finalizers.ForeignKept(s.world, t.world, k)
  {
    match e
    case Reconciled(own, script) =>
      assert WellFormed(cfg, NamesOf(cfg, own));
      Finalizers.ReconcileKeepsFinalizers(cfg, s.world.(script := script), s.mem, own, k);
    case Restarted =>
  }

  /** Over whole runs the finalizers of others stay on every Cluster, in their order, unless they are changed from
      outside; a Cluster goes only when none of them is left. */
  lemma {:induction false} RunKeepsFinalizers(cfg: Config, keys: set<Key>, states: seq<System>, events: seq<Event>, i: nat,
                                              k: Key)
    requires Apart(cfg, keys) && Run(cfg, keys, states, events) && Initial(cfg, keys, states[0])
    requires i < |states|
    requires forall j :: 0 <= j < i && events[j].Disturbed? ==>
               Finalizers.Foreign(states[j + 1].world, k) == Finalizers.Foreign(states[j].world, k)
    ensures var before, after := Finalizers.Foreign(states[0].world, k), Finalizers.Foreign(states[i].world, k);
            after == before || (after == None && before == Some([]))
  {
    if i > 0 {
      RunKeepsFinalizers(cfg, keys, states, events, i - 1, k);
      if !events[i - 1].Disturbed? {
        RunInvariant(cfg, keys, states, events, i - 1);
        NextKeepsFinalizers(cfg, keys, states[i - 1], events[i - 1], states[i], k);
      }
    }
  }
}
