/** Reconcile from end to end: what one uninterrupted call achieves, and when a call does nothing. */
module Reconciliation {
  import opened Prelude
  import opened Keys
  import opened Documents
  import opened Tokens
  import opened Environment
  import opened Machine
  import opened Effects
  import opened Steps
  import opened Injection
  import opened Registration
  import opened Progress
  import opened Accounting
  import Clock
  import opened Goal
  import opened Minting
  import opened Convergence
  import opened Removal
  import opened Ownership
  import opened Isolation
  import opened IdentityGate

  /** The gate will open: the stored identity can be read, or the cached one outlives the call. */
  predicate GateOpen(cfg: Config, w: World, mem: Memory) {
    IdentityReadable(cfg, w) || !Expired(mem, Deadline(w))
  }

  const GATE_CALLS := 4

  /** With the gate open and enough calls, only time passes before the work on the cluster begins. */
  lemma ReconcileProceeds(cfg: Config, w: World, mem: Memory, k: Key) returns (v: World)
    requires k in w.clusters && GateOpen(cfg, w, mem) && |w.script| >= GATE_CALLS
    ensures OnlyLater(w, v) && |v.script| >= |w.script| - GATE_CALLS
    ensures Reconcile(cfg, w, mem, k).run == Manage(cfg, v, k, w.clusters[k], RolesFor(k in w.appsEnabled))
  {
    var w1 := Call(w).w;
    var w2 := Call(w1).w;
    CallOnlyLater(w);
    CallOnlyLater(w1);
    OnlyLaterTransitive(w, w1, w2);
    var recorded := mem.(lastAssignedRoles := RolesFor(k in w.appsEnabled));
    GateExactly(cfg, w2, recorded);
    GateOnlyLater(cfg, w2, recorded);
    v := Gate(cfg, w2, recorded).run.w;
    OnlyLaterTransitive(w, w2, v);
  }

  lemma LaterStillStored(cfg: Config, n: Names, w: World, v: World)
    requires OnlyLater(w, v) && FreshNames(cfg, w) && StoredBefore(cfg, n, w)
    ensures FreshNames(cfg, v) && StoredBefore(cfg, n, v) && (Recoverable(n, v) <==> Recoverable(n, w))
  {
  }

  lemma LiveReconcileRegisters(cfg: Config, w: World, mem: Memory, k: Key)
    requires WellFormed(cfg, NamesOf(cfg, k)) && FreshNames(cfg, w) && StoredBefore(cfg, NamesOf(cfg, k), w)
    requires k in w.clusters && !w.clusters[k].deleting
    requires GateOpen(cfg, w, mem) && |w.script| >= GATE_CALLS + REGISTER_CALLS
    ensures var n, r := NamesOf(cfg, k), Reconcile(cfg, w, mem, k).run;
            && (Registered(cfg, n, r.w, RolesFor(k in w.appsEnabled), w.now) <==> Recoverable(n, w))
            && (Recoverable(n, w) ==> r.Ok? && r.value == 5 * MINUTE)
  {
    var n := NamesOf(cfg, k);
    var v := ReconcileProceeds(cfg, w, mem, k);
    LaterStillStored(cfg, n, w, v);
    RolesForAreTokenRoles(k in w.appsEnabled);
    RegisterExactly(cfg, v, n, w.clusters[k], RolesFor(k in w.appsEnabled), w.now);
  }

  lemma LiveReconcileStays(cfg: Config, w: World, mem: Memory, k: Key)
    requires WellFormed(cfg, NamesOf(cfg, k)) && FreshNames(cfg, w) && StoredBefore(cfg, NamesOf(cfg, k), w)
    requires k in w.clusters && !w.clusters[k].deleting && !Recoverable(NamesOf(cfg, k), w)
    requires GateOpen(cfg, w, mem) && |w.script| >= GATE_CALLS + REGISTER_CALLS
    ensures !Recoverable(NamesOf(cfg, k), Reconcile(cfg, w, mem, k).run.w)
  {
    var n := NamesOf(cfg, k);
    var v := ReconcileProceeds(cfg, w, mem, k);
    LaterStillStored(cfg, n, w, v);
    RolesForAreTokenRoles(k in w.appsEnabled);
    UnrecoverableStays(cfg, v, n, w.clusters[k], RolesFor(k in w.appsEnabled));
  }

  /** An uninterrupted reconcile of a live cluster registers it, which is to say that it reaches the goal, if and
      only if what was stored is recoverable. */
  lemma LiveReconcileExactly(cfg: Config, w: World, mem: Memory, k: Key)
    requires WellFormed(cfg, NamesOf(cfg, k)) && FreshNames(cfg, w) && StoredBefore(cfg, NamesOf(cfg, k), w)
    requires k in w.clusters && !w.clusters[k].deleting
    requires GateOpen(cfg, w, mem) && |w.script| >= GATE_CALLS + REGISTER_CALLS
    ensures var n, r, enabled := NamesOf(cfg, k), Reconcile(cfg, w, mem, k).run, k in w.appsEnabled;
            && (Reached(cfg, k, r.w, enabled, w.now) <==> Recoverable(n, w))
            && (Registered(cfg, n, r.w, RolesFor(enabled), w.now) <==> Recoverable(n, w))
            && (Recoverable(n, w) ==> r.Ok? && r.value == 5 * MINUTE)
  {
    var r, enabled := Reconcile(cfg, w, mem, k).run, k in w.appsEnabled;
    LiveReconcileRegisters(cfg, w, mem, k);
    if Recoverable(NamesOf(cfg, k), w) {
      RegisteredIsReached(cfg, k, r.w, enabled, w.now);
    } else {
      LiveReconcileStays(cfg, w, mem, k);
      if Reached(cfg, k, r.w, enabled, w.now) {
        ReachedIsRecoverable(cfg, k, r.w, enabled, w.now);
      }
    }
  }

  lemma LaterOneKind(w: World, v: World, resource: Key, name: string)
    requires OnlyLater(w, v)
    ensures OneKind(w, resource, name) <==> OneKind(v, resource, name)
  {
  }

  /** An uninterrupted reconcile of a cluster marked for deletion takes the finalizer off, and leaves nothing of the
      operator's behind if and only if no App under a HelmRelease holds a reference. */
  lemma DeletingReconcileExactly(cfg: Config, w: World, mem: Memory, k: Key)
    requires k in w.clusters && w.clusters[k].deleting
    requires GateOpen(cfg, w, mem) && |w.script| >= GATE_CALLS + DEREGISTER_CALLS
    ensures var n, r := NamesOf(cfg, k), Reconcile(cfg, w, mem, k).run;
            && r.Ok? && r.value == 0 && !Guards(r.w, k)
            && (Gone(cfg, k, r.w) <==> !Owned(cfg, n, r.w))
            && (!Owned(cfg, n, r.w) <==>
                OneKind(w, n.agent, n.configMap.name) && (cfg.botEnabled ==> OneKind(w, n.bot, n.botConfigMap.name)))
  {
    var n, c := NamesOf(cfg, k), w.clusters[k];
    var v := ReconcileProceeds(cfg, w, mem, k);
    DeregisterCompletes(cfg, v, n, c);
    DeregisterClears(cfg, n, v);
    ClearedMeans(cfg, n, v);
    DeregisterLeavesNothing(cfg, n, v);
    NothingLeftExactly(cfg, k, Reconcile(cfg, w, mem, k).run.w);
    NamesSpelledOut(cfg, k);
    LaterOneKind(w, v, n.agent, n.configMap.name);
    LaterOneKind(w, v, n.bot, n.botConfigMap.name);
  }

  lemma StillRegistered(cfg: Config, n: Names, w: World, v: World, roles: seq<string>)
    requires OnlyLater(w, v) && Registered(cfg, n, w, roles, Deadline(w))
    ensures Registered(cfg, n, v, roles, Deadline(v))
  {
    LaterReferences(cfg, n, w, v);
    assert Deadline(v) == Deadline(w) && v.secrets == w.secrets && v.tokens == w.tokens && v.configMaps == w.configMaps;
  }

  /** Quiescence: in a registered state whose tokens outlive the call, a reconcile makes no write and draws no token,
      whatever the cached identity, and whether or not it is interrupted. */
  lemma ReconcileQuiet(cfg: Config, w: World, mem: Memory, k: Key)
    requires WellFormed(cfg, NamesOf(cfg, k)) && FreshNames(cfg, w)
    requires k in w.clusters && !w.clusters[k].deleting
    requires Registered(cfg, NamesOf(cfg, k), w, RolesFor(k in w.appsEnabled), Deadline(w))
    ensures OnlyLater(w, Reconcile(cfg, w, mem, k).run.w)
  {
    var n, enabled, o := NamesOf(cfg, k), k in w.appsEnabled, Reconcile(cfg, w, mem, k);
    ReconcileStarts(cfg, w, mem, k);
    if !OnlyLater(w, o.run.w) {
      var v :| OnlyLater(w, v) && k in w.clusters && o.run == Manage(cfg, v, k, w.clusters[k], RolesFor(enabled));
      SameFresh(cfg, w, v);
      RolesForAreTokenRoles(enabled);
      StillRegistered(cfg, n, w, v, RolesFor(enabled));
      RegisterQuiet(cfg, v, n, w.clusters[k], RolesFor(enabled));
      OnlyLaterTransitive(w, v, o.run.w);
    }
  }

  /** Token accounting for a whole reconcile of a live cluster, wherever it stops. */
  lemma ReconcileAccounting(cfg: Config, w: World, mem: Memory, k: Key)
    requires WellFormed(cfg, NamesOf(cfg, k)) && FreshNames(cfg, w) && Readable(cfg, NamesOf(cfg, k), w)
    requires k in w.clusters && !w.clusters[k].deleting
    ensures RegisterAccount(cfg, NamesOf(cfg, k), w, Reconcile(cfg, w, mem, k).run)
  {
    var n, enabled, o := NamesOf(cfg, k), k in w.appsEnabled, Reconcile(cfg, w, mem, k);
    ReconcileStarts(cfg, w, mem, k);
    if OnlyLater(w, o.run.w) {
      NothingDrawn(cfg, n, w, o.run);
    } else {
      var v :| OnlyLater(w, v) && k in w.clusters && o.run == Manage(cfg, v, k, w.clusters[k], RolesFor(enabled));
      SameFresh(cfg, w, v);
      RolesForAreTokenRoles(enabled);
      RegisterAccounting(cfg, v, n, w.clusters[k], RolesFor(enabled));
      AccountFromLater(cfg, n, w, v, o.run);
    }
  }

  /** ... and the tokens it creates are labelled with the cluster and their roles and last 720 hours. */
  lemma ReconcileMints(cfg: Config, w: World, mem: Memory, k: Key)
    requires WellFormed(cfg, NamesOf(cfg, k)) && FreshNames(cfg, w) && Readable(cfg, NamesOf(cfg, k), w)
    requires k in w.clusters && !w.clusters[k].deleting
    ensures OnlyMade(NamesOf(cfg, k), w, Reconcile(cfg, w, mem, k).run.w)
  {
    var n, enabled, o := NamesOf(cfg, k), k in w.appsEnabled, Reconcile(cfg, w, mem, k);
    ReconcileStarts(cfg, w, mem, k);
    if OnlyLater(w, o.run.w) {
      NothingMade(n, w, o.run.w);
    } else {
      var v :| OnlyLater(w, v) && k in w.clusters && o.run == Manage(cfg, v, k, w.clusters[k], RolesFor(enabled));
      SameFresh(cfg, w, v);
      RolesForAreTokenRoles(enabled);
      NothingMade(n, w, v);
      RegisterMade(cfg, v, n, w.clusters[k], RolesFor(enabled));
      Clock.RegisterLater(cfg, v, n, w.clusters[k], RolesFor(enabled));
      MadeTransitive(n, w, v, o.run.w);
    }
  }

  lemma NothingDrawn(cfg: Config, n: Names, w: World, r: Run<int>)
    requires OnlyLater(w, r.w)
    ensures RegisterAccount(cfg, n, w, r)
  {
  }

  lemma AccountFromLater(cfg: Config, n: Names, w: World, v: World, r: Run<int>)
    requires OnlyLater(w, v) && RegisterAccount(cfg, n, v, r)
    ensures RegisterAccount(cfg, n, w, r)
  {
    forall t | t in NewTokens(w, r.w) ensures DrawnIn(cfg, n, w, r.w, t) {
      assert DrawnIn(cfg, n, v, r.w, t);
    }
  }
}
