/** A deletion that is interrupted, whole reconcile by whole reconcile, ends where an undisturbed one does. */
module Resumption {
  import opened Prelude
  import opened Keys
  import opened Documents
  import opened Tokens
  import opened Environment
  import opened Machine
  import opened Effects
  import opened Steps
  import opened Removal
  import opened Ownership
  import opened Isolation
  import opened IdentityGate
  import opened Reconciliation

  /** One reconcile: some time after the last, in a new process or the same one, driven by its own script. */
  datatype Try = Try(delay: nat, restarted: bool, script: seq<nat>)

  function Started(w: World, t: Try): World {
    w.(now := w.now + t.delay, script := t.script)
  }

  function Recalled(mem: Memory, t: Try): Memory {
    if t.restarted then STARTED else mem
  }

  function Attempt(cfg: Config, s: System, k: Key, t: Try): System {
    var o := Reconcile(cfg, Started(s.world, t), Recalled(s.mem, t), k);
    System(o.run.w, o.mem)
  }

  function Attempts(cfg: Config, s: System, k: Key, tries: seq<Try>): System {
    if tries == [] then s else Attempt(cfg, Attempts(cfg, s, k, tries[..|tries| - 1]), k, tries[|tries| - 1])
  }

  /** The Cluster is on its way out, or gone. */
  predicate Leaving(w: World, k: Key) {
    k in w.clusters ==> w.clusters[k].deleting
  }

  // --- One attempt -----------------------------------------------------------------------------------------

  lemma StartedToward(cfg: Config, n: Names, w: World, t: Try)
    ensures Toward(cfg, n, w, Started(w, t)) && SameObjects(w, Started(w, t))
  {
    SameObjectsToward(cfg, n, w, Started(w, t));
  }

  /** A reconcile of a leaving Cluster takes time, and then it deregisters or does nothing. */
  lemma LeavingStarts(cfg: Config, w: World, mem: Memory, k: Key)
    requires Leaving(w, k)
    ensures var r, n := Reconcile(cfg, w, mem, k).run, NamesOf(cfg, k);
            || (OnlyLater(w, r.w) && (r.Fail? || k !in w.clusters))
            || (exists v :: OnlyLater(w, v) && k in w.clusters && r == Deregister(cfg, v, n, w.clusters[k]))
  {
    ReconcileStarts(cfg, w, mem, k);
  }

  lemma ReleasedLeaving(w: World, v: World, k: Key)
    requires Leaving(w, k) && (v.clusters == w.clusters || v.clusters == Released(w.clusters, k))
    ensures Leaving(v, k)
  {
  }

  /** Every attempt, wherever it stops, is on the way to the cleared state; it leaves the Cluster alone unless it
      arrives there. */
  lemma ReconcileToward(cfg: Config, w: World, mem: Memory, k: Key)
    requires Leaving(w, k)
    ensures var v, n := Reconcile(cfg, w, mem, k).run.w, NamesOf(cfg, k);
            && Toward(cfg, n, w, v) && Leaving(v, k)
            && (v.clusters == w.clusters || SameObjects(Cleared(cfg, n, w), v))
            && (k !in w.clusters ==> SameObjects(w, v))
  {
    LeavingStarts(cfg, w, mem, k);
    var r, n := Reconcile(cfg, w, mem, k).run, NamesOf(cfg, k);
    if OnlyLater(w, r.w) {
      SameObjectsToward(cfg, n, w, r.w);
    } else {
      var v :| OnlyLater(w, v) && k in w.clusters && r == Deregister(cfg, v, n, w.clusters[k]);
      SameObjectsToward(cfg, n, w, v);
      DeregisterToward(cfg, n, v);
      TowardTransitive(cfg, n, w, v, r.w);
      if r.Ok? {
        DeregisterClears(cfg, n, v);
        TowardMeans(cfg, n, w, v);
      }
      ReleasedLeaving(w, r.w, k);
    }
  }

  lemma AttemptToward(cfg: Config, s: System, k: Key, t: Try)
    requires Leaving(s.world, k)
    ensures var w, v, n := s.world, Attempt(cfg, s, k, t).world, NamesOf(cfg, k);
            && Toward(cfg, n, w, v) && Leaving(v, k)
            && (v.clusters == w.clusters || SameObjects(Cleared(cfg, n, w), v))
            && (k !in w.clusters ==> SameObjects(w, v))
  {
    var n, w, u := NamesOf(cfg, k), s.world, Started(s.world, t);
    StartedToward(cfg, n, w, t);
    ReconcileToward(cfg, u, Recalled(s.mem, t), k);
    TowardTransitive(cfg, n, w, u, Attempt(cfg, s, k, t).world);
    TowardMeans(cfg, n, w, u);
  }

  lemma ReconcileTokens(cfg: Config, w: World, mem: Memory, k: Key)
    requires Leaving(w, k)
    ensures var v, own := Reconcile(cfg, w, mem, k).run.w, NamesOf(cfg, k).register;
            v.tokens == w.tokens || v.tokens == DeleteOneLabelled(w.tokens, own)
  {
    LeavingStarts(cfg, w, mem, k);
    var r, n := Reconcile(cfg, w, mem, k).run, NamesOf(cfg, k);
    if !OnlyLater(w, r.w) {
      var v :| OnlyLater(w, v) && k in w.clusters && r == Deregister(cfg, v, n, w.clusters[k]);
      TokensAfterDeregister(cfg, n, v, w.clusters[k]);
    }
  }

  /** The number of things left never grows. */
  lemma AttemptProgress(cfg: Config, s: System, k: Key, t: Try)
    requires Leaving(s.world, k)
    ensures OwnedCount(cfg, NamesOf(cfg, k), Attempt(cfg, s, k, t).world) <= OwnedCount(cfg, NamesOf(cfg, k), s.world)
  {
    var w, n := Started(s.world, t), NamesOf(cfg, k);
    var r := Reconcile(cfg, w, Recalled(s.mem, t), k).run;
    LeavingStarts(cfg, w, Recalled(s.mem, t), k);
    SameReferencesSurvive(cfg, n, s.world, w);
    if OnlyLater(w, r.w) {
      SameReferencesSurvive(cfg, n, s.world, r.w);
    } else {
      var v :| OnlyLater(w, v) && k in w.clusters && r == Deregister(cfg, v, n, w.clusters[k]);
      SameReferencesSurvive(cfg, n, s.world, v);
      DeregisterSurvives(cfg, n, v);
      NothingAddedTransitive(cfg, n, s.world, v, r.w);
    }
    NothingAddedCount(cfg, n, s.world, r.w);
  }

  // --- Any number of attempts --------------------------------------------------------------------------------

  lemma {:induction false} AttemptsToward(cfg: Config, s: System, k: Key, tries: seq<Try>)
    requires Leaving(s.world, k)
    ensures var w, v, n := s.world, Attempts(cfg, s, k, tries).world, NamesOf(cfg, k);
            && Toward(cfg, n, w, v) && Leaving(v, k)
            && (k in w.clusters && k !in v.clusters ==> SameObjects(Cleared(cfg, n, w), v))
  {
    var n := NamesOf(cfg, k);
    if tries == [] {
      SameObjectsToward(cfg, n, s.world, s.world);
    } else {
      var before := Attempts(cfg, s, k, tries[..|tries| - 1]);
      AttemptsToward(cfg, s, k, tries[..|tries| - 1]);
      AttemptToward(cfg, before, k, tries[|tries| - 1]);
      TowardTransitive(cfg, n, s.world, before.world, Attempts(cfg, s, k, tries).world);
      TowardMeans(cfg, n, s.world, before.world);
    }
  }

  lemma {:induction false} AttemptsTokens(cfg: Config, s: System, k: Key, tries: seq<Try>) returns (d: nat)
    requires Leaving(s.world, k)
    ensures d <= |tries|
    ensures Attempts(cfg, s, k, tries).world.tokens == DeleteTimes(s.world.tokens, NamesOf(cfg, k).register, d)
  {
    if tries == [] {
      d := 0;
    } else {
      var own, t := NamesOf(cfg, k).register, tries[|tries| - 1];
      var before := Attempts(cfg, s, k, tries[..|tries| - 1]);
      d := AttemptsTokens(cfg, s, k, tries[..|tries| - 1]);
      AttemptsToward(cfg, s, k, tries[..|tries| - 1]);
      ReconcileTokens(cfg, Started(before.world, t), Recalled(before.mem, t), k);
      d := OneMore(s.world.tokens, before.world.tokens, Attempts(cfg, s, k, tries).world.tokens, own, d);
    }
  }

  lemma OneMore(tokens: seq<Token>, before: seq<Token>, after: seq<Token>, registerName: string, i: nat)
    returns (d: nat)
    requires before == DeleteTimes(tokens, registerName, i)
    requires after == before || after == DeleteOneLabelled(before, registerName)
    ensures d <= i + 1 && after == DeleteTimes(tokens, registerName, d)
  {
    d := if after == before then i else i + 1;
  }

  // --- The last attempt ----------------------------------------------------------------------------------------

  lemma IdentityIsNotOwn(cfg: Config, k: Key)
    ensures Key(cfg.namespace, IDENTITY_SECRET) !in SecretKeys(cfg, NamesOf(cfg, k))
  {
    LastOfConcat(k.name, "-teleport-join-token");
    LastOfConcat("teleport-" + k.name, "-kubeconfig");
  }

  /** Deletion never touches the operator's identity. */
  lemma IdentityStays(cfg: Config, k: Key, w: World, v: World)
    requires Toward(cfg, NamesOf(cfg, k), w, v) && IdentityReadable(cfg, w)
    ensures IdentityReadable(cfg, v)
  {
    IdentityIsNotOwn(cfg, k);
    OtherEntry(w.secrets, v.secrets, SecretKeys(cfg, NamesOf(cfg, k)), Key(cfg.namespace, IDENTITY_SECRET));
  }

  /** An uninterrupted attempt on a Cluster that is still there clears it. */
  lemma FullAttemptClears(cfg: Config, s: System, k: Key, full: Try)
    requires k in s.world.clusters && s.world.clusters[k].deleting && IdentityReadable(cfg, s.world)
    requires |full.script| >= GATE_CALLS + DEREGISTER_CALLS
    ensures SameObjects(Cleared(cfg, NamesOf(cfg, k), s.world), Attempt(cfg, s, k, full).world)
  {
    var n, w := NamesOf(cfg, k), Started(s.world, full);
    var v := ReconcileProceeds(cfg, w, Recalled(s.mem, full), k);
    DeregisterCompletes(cfg, v, n, w.clusters[k]);
    DeregisterClears(cfg, n, v);
    SameObjectsToward(cfg, n, s.world, v);
    TowardMeans(cfg, n, s.world, v);
  }

  lemma ObjectsAfterAll(cfg: Config, s: System, k: Key, tries: seq<Try>, full: Try)
    requires k in s.world.clusters && s.world.clusters[k].deleting && IdentityReadable(cfg, s.world)
    requires |full.script| >= GATE_CALLS + DEREGISTER_CALLS
    ensures SameObjects(Cleared(cfg, NamesOf(cfg, k), s.world),
                        Attempt(cfg, Attempts(cfg, s, k, tries), k, full).world)
  {
    var before, n := Attempts(cfg, s, k, tries), NamesOf(cfg, k);
    AttemptsToward(cfg, s, k, tries);
    if k in before.world.clusters {
      IdentityStays(cfg, k, s.world, before.world);
      FullAttemptClears(cfg, before, k, full);
      TowardMeans(cfg, n, s.world, before.world);
    } else {
      AttemptToward(cfg, before, k, full);
    }
  }

  lemma TokensAfterAll(cfg: Config, s: System, k: Key, tries: seq<Try>, full: Try) returns (d: nat)
    requires Leaving(s.world, k) && UniqueNames(s.world.tokens)
    ensures var tokens, own := Attempt(cfg, Attempts(cfg, s, k, tries), k, full).world.tokens, NamesOf(cfg, k).register;
            && NotLabelled(tokens, own) == NotLabelled(s.world.tokens, own)
            && d <= |tries| + 1 && Labelled(tokens, own) == Beyond(Labelled(s.world.tokens, own), d)
  {
    var all := tries + [full];
    d := AttemptsTokens(cfg, s, k, all);
    assert all[..|all| - 1] == tries;
    DeleteTimesAccounting(s.world.tokens, NamesOf(cfg, k).register, d);
  }

  /** Deletion is resumable: after any reconciles of the deleted Cluster, each stopped after any of its calls, some
      not past the gate, with time and restarts in between, one uninterrupted reconcile leaves the objects that an
      undisturbed one would have left. Tokens of other labels are untouched; of the cluster's own, the reconciles
      together removed the first d. */
  lemma DeregistrationResumes(cfg: Config, s: System, k: Key, tries: seq<Try>, full: Try) returns (d: nat)
    requires k in s.world.clusters && s.world.clusters[k].deleting && UniqueNames(s.world.tokens)
    requires IdentityReadable(cfg, s.world) && |full.script| >= GATE_CALLS + DEREGISTER_CALLS
    ensures var v, own := Attempt(cfg, Attempts(cfg, s, k, tries), k, full).world, NamesOf(cfg, k).register;
            && SameObjects(Attempt(cfg, s, k, full).world, v)
            && NotLabelled(v.tokens, own) == NotLabelled(s.world.tokens, own)
            && d <= |tries| + 1 && Labelled(v.tokens, own) == Beyond(Labelled(s.world.tokens, own), d)
  {
    ObjectsAfterAll(cfg, s, k, tries, full);
    FullAttemptClears(cfg, s, k, full);
    d := TokensAfterAll(cfg, s, k, tries, full);
  }

  /** The measure: what is left never grows from one reconcile to the next, and an uninterrupted one brings it to
      zero, unless an App under a HelmRelease holds a reference. */
  lemma MeasureReachesZero(cfg: Config, s: System, k: Key, full: Try)
    requires k in s.world.clusters && s.world.clusters[k].deleting && IdentityReadable(cfg, s.world)
    requires |full.script| >= GATE_CALLS + DEREGISTER_CALLS
    ensures var n, w := NamesOf(cfg, k), s.world;
            OwnedCount(cfg, n, Attempt(cfg, s, k, full).world) == 0 <==>
            OneKind(w, n.agent, n.configMap.name) && (cfg.botEnabled ==> OneKind(w, n.bot, n.botConfigMap.name))
  {
    var w := Started(s.world, full);
    DeletingReconcileExactly(cfg, w, Recalled(s.mem, full), k);
    CountIsOwned(cfg, NamesOf(cfg, k), Attempt(cfg, s, k, full).world);
  }
}
