/**
 * What Reconcile promises across worlds: a stand-alone machine does not
 * depend on owner or cluster lookups, a provider that cannot be resolved is
 * not retried, and the pair of lemmas on the ScvmmCluster gate.
 */
module ReconcileProperties {
  import opened Common
  import opened Machine
  import opened Attempts
  import opened Provider
  import opened Provisioning
  import opened Reconcile

  /**
   * A stand-alone machine (one with a cloud-init section) reconciles the
   * same whatever the owner, cluster and ScvmmCluster lookups return.
   */
  lemma StandaloneIgnoresOwner(ctx: Ctx, w1: World, w2: World, st: St)
    requires st.rec.spec.cloudInit.Some?
    requires w1.store == w2.store && w1.env == w2.env
    requires w1.bootstrapData == w2.bootstrapData && w1.cloudInitWritten == w2.cloudInitWritten
    ensures ReconcileAttempt(ctx, w1, st) == ReconcileAttempt(ctx, w2, st)
  {
    var st0 := WithDiskSizes(st);
    assert OwnerGate(ctx, w1, st0) == OwnerGate(ctx, w2, st0) == Proceed(None, false, None);
    assert ReconcileAttempt(ctx, w1, st) == Proceeding(ctx, w1, st0, None, false, None);
    assert ReconcileAttempt(ctx, w2, st) == Proceeding(ctx, w2, st0, None, false, None);
  }

  /**
   * A provider that cannot be resolved (a missing host, a missing provider
   * object or secret) ends the attempt with no result to retry, after the
   * disk sizes were filled in and before anything is written or sent.
   */
  lemma ProviderErrorSwallowed(ctx: Ctx, w: World, st: St)
    requires st.rec.deleting || st.rec.hasFinalizer
    requires var g := OwnerGate(ctx, w, WithDiskSizes(st));
      g.Proceed? && Resolve(g.cluster, MachineProviderRef(st.rec.spec), w.store, w.env).ResolveError?
    ensures ReconcileAttempt(ctx, w, st) == Attempt(WithDiskSizes(st), Done)
  {
    var st0 := WithDiskSizes(st);
    assert MachineProviderRef(st0.rec.spec) == MachineProviderRef(st.rec.spec);
  }

  /**
   * The gate as written stops every machine that belongs to a cluster once
   * its owner and cluster were found, whatever the ScvmmCluster lookup would
   * give: VmCreated says ClusterNotAvailable, the attempt is done with no
   * retry, nothing is sent and the finalizer is never added.
   */
  lemma AsWrittenOwnedMachineWaits(ctx: Ctx, w: World, st: St)
    requires st.rec.spec.cloudInit.None?
    requires w.machine.Found? && w.cluster.Found?
    ensures OwnerGateAsWritten(ctx, w, st).Blocked?
    ensures var a := OwnerGateAsWritten(ctx, w, st).a;
      && a.outcome == Done && a.st.trace == st.trace
      && a.st.rec.hasFinalizer == st.rec.hasFinalizer
      && a.st.rec.conditions[VmCreated] == Condition(false, ClusterNotAvailable, SeverityInfo, "")
      && OwnerGateAsWritten(ctx, w.(scvmmCluster := None), st) == OwnerGateAsWritten(ctx, w, st)
  {
  }

  /**
   * With the ScvmmCluster kept, an owned, live machine whose cluster's
   * infrastructure is ready gets past the gate and receives the finalizer,
   * without a remote command.
   */
  lemma OwnedMachineReachesFinalizer(ctx: Ctx, w: World, st: St)
    requires st.rec.spec.cloudInit.None? && !st.rec.deleting && !st.rec.hasFinalizer
    requires w.machine.Found? && w.cluster.Found? && w.cluster.value.infrastructureReady && w.scvmmCluster.Some?
    ensures var a := ReconcileAttempt(ctx, w, st);
      a.st.rec.hasFinalizer && a.outcome == Done && a.st.trace == st.trace
      && a.st.writes == st.writes + (if ctx.patchOk then [a.st.rec] else [])
  {
    var st0 := WithDiskSizes(st);
    assert OwnerGate(ctx, w, st0).Proceed?;
    assert ReconcileAttempt(ctx, w, st) == AddFinalizer(ctx, st0);
  }
}
