/** The gate in front of every cluster: the Teleport client is there, and belongs to a recent identity. */
module IdentityGate {
  import opened Prelude
  import opened Clock
  import opened Keys
  import opened Roles
  import opened Documents
  import opened Tokens
  import opened Environment
  import opened Machine
  import opened Effects
  import opened Steps
  import opened Progress
  import opened Isolation

  /** While the cached identity has not expired, the client is the one built from it. An expired identity says
      nothing about the client: a failed reconnect leaves the old identity beside a nil client. */
  predicate Connected(mem: Memory, now: int) {
    !Expired(mem, now) ==> mem.client == Some(mem.identity.value.file)
  }

  predicate IdentityReadable(cfg: Config, w: World) {
    var k := Key(cfg.namespace, "identity-output");
    k in w.secrets && "identity" in w.secrets[k]
  }

  /** The identity that passes: the cached one unless it has expired, else the one stored now. */
  function Admitted(cfg: Config, w: World, mem: Memory): string
    requires Expired(mem, w.now) ==> IdentityReadable(cfg, w)
  {
    if Expired(mem, w.now) then w.secrets[Key(cfg.namespace, "identity-output")]["identity"] else mem.identity.value.file
  }

  /** The gate opens exactly when the cached identity is recent enough, or the stored one is readable and the two
      calls to read it and to connect succeed. */
  lemma GateExactly(cfg: Config, w: World, mem: Memory)
    ensures Gate(cfg, w, mem).run.Ok? <==>
              || (mem.identity.Some? && w.now - mem.identity.value.lastRead <= 20 * MINUTE)
              || (IdentityReadable(cfg, w) && |w.script| >= 2)
  {
  }

  /** The client is there and belongs to the cached identity, read at most 20 minutes before `now` or since then. */
  predicate Admits(mem: Memory, now: int) {
    && mem.identity.Some? && mem.client == Some(mem.identity.value.file)
    && (now - mem.identity.value.lastRead <= 20 * MINUTE || now <= mem.identity.value.lastRead)
  }

  /** Past the gate the client is non-nil and built from the admitted identity, which is at most 20 minutes old or
      has been read since the gate was reached. */
  lemma GateAdmits(cfg: Config, w: World, mem: Memory)
    requires Connected(mem, w.now) && Gate(cfg, w, mem).run.Ok?
    ensures Expired(mem, w.now) ==> IdentityReadable(cfg, w)
    ensures var m := Gate(cfg, w, mem).mem;
            && Admits(m, w.now) && m.identity.value.file == Admitted(cfg, w, mem)
            && (Expired(mem, w.now) ==> w.now <= m.identity.value.lastRead <= Gate(cfg, w, mem).run.w.now)
  {
    GateExactly(cfg, w, mem);
  }

  /** A gate that stays closed has kept the identity. It has kept the client too if the stored identity could not be
      read, and has set it to nil if connecting with it failed. */
  lemma ClosedGate(cfg: Config, w: World, mem: Memory)
    requires Gate(cfg, w, mem).run.Fail?
    ensures var m := Gate(cfg, w, mem).mem;
            && m.identity == mem.identity && m.lastAssignedRoles == mem.lastAssignedRoles
            && m.client == if IdentityReadable(cfg, w) && |w.script| == 1 then None else mem.client
  {
    GateExactly(cfg, w, mem);
  }

  /** Whether it opens or not, the gate leaves the memory connected, at any later time. */
  lemma GateKeepsConnected(cfg: Config, w: World, mem: Memory, later: int)
    requires Connected(mem, w.now) && Gate(cfg, w, mem).run.w.now <= later
    ensures Connected(Gate(cfg, w, mem).mem, later)
  {
    GateOnlyLater(cfg, w, mem);
  }

  /** The world in which a reconcile reaches the gate, and the memory it brings there; None if it stops before. */
  function Arrival(cfg: Config, w: World, mem: Memory, k: Key): Option<System> {
    match GetCluster(w, k)
    case Ok(w1, Some(_)) =>
      (match AreTeleportAppsEnabled(w1, k)
       case Ok(w2, enabled) => Some(System(w2, mem.(lastAssignedRoles := RolesFor(enabled))))
       case Fail(_) => None)
    case _ => None
  }

  /** A reconcile that stops before the gate keeps its memory; one that arrives leaves with what the gate makes of
      it, and whatever it then does to the world takes place behind an open gate. */
  lemma ReconcileArrives(cfg: Config, w: World, mem: Memory, k: Key)
    ensures var o := Reconcile(cfg, w, mem, k);
            match Arrival(cfg, w, mem, k)
            case None => o.mem == mem && OnlyLater(w, o.run.w)
            case Some(s) =>
              var gate := Gate(cfg, s.world, s.mem);
              && OnlyLater(w, s.world) && s.mem.identity == mem.identity && s.mem.client == mem.client
              && o.mem == gate.mem && k in w.clusters
              && (gate.run.Fail? ==> o.run == Fail(gate.run.w) && OnlyLater(w, o.run.w))
              && (gate.run.Ok? ==>
                    o.run == Manage(cfg, gate.run.w, k, w.clusters[k], RolesFor(k in w.appsEnabled)))
  {
    CallOnlyLater(w);
    var g := GetCluster(w, k);
    if g.Ok? && g.value.Some? {
      CallOnlyLater(g.w);
      var e := AreTeleportAppsEnabled(g.w, k);
      if e.Ok? {
        GateOnlyLater(cfg, e.w, mem.(lastAssignedRoles := RolesFor(e.value)));
      }
    }
  }

  /** A Cluster that is not there is nothing to do, and no error. */
  lemma AbsentCluster(cfg: Config, w: World, mem: Memory, k: Key)
    requires k !in w.clusters && w.script != []
    ensures var o := Reconcile(cfg, w, mem, k);
            o.run.Ok? && o.run.value == 0 && o.mem == mem && OnlyLater(w, o.run.w)
  {
    CallOnlyLater(w);
  }

  /** A reconcile that arrives at the gate records the roles that the cluster's apps call for, whatever comes next. */
  lemma RolesRecorded(cfg: Config, w: World, mem: Memory, k: Key)
    requires Arrival(cfg, w, mem, k).Some?
    ensures Reconcile(cfg, w, mem, k).mem.lastAssignedRoles == if k in w.appsEnabled then ["kube", "app"] else ["kube"]
  {
    ReconcileArrives(cfg, w, mem, k);
    assert [ROLE_KUBE] + [ROLE_APP] == ["kube", "app"] && [ROLE_KUBE] + [] == ["kube"];
  }

  /** Every reconcile, wherever it stops, keeps the memory connected at any later time. */
  lemma ReconcileKeepsConnected(cfg: Config, w: World, mem: Memory, k: Key, later: int)
    requires Connected(mem, w.now) && Reconcile(cfg, w, mem, k).run.w.now <= later
    ensures Connected(Reconcile(cfg, w, mem, k).mem, later)
  {
    ReconcileArrives(cfg, w, mem, k);
    var arrival := Arrival(cfg, w, mem, k);
    if arrival.Some? {
      var s := arrival.value;
      var gate := Gate(cfg, s.world, s.mem);
      if gate.run.Ok? {
        ManageLater(cfg, gate.run.w, k, w.clusters[k], RolesFor(k in w.appsEnabled));
      }
      GateKeepsConnected(cfg, s.world, s.mem, later);
    }
  }

  lemma SameFresh(cfg: Config, w: World, v: World)
    requires FreshNames(cfg, w) && SameTokens(w, v)
    ensures FreshNames(cfg, v)
  {
  }
}
