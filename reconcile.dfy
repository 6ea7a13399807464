/**
 * Reconcile: the entry point of one attempt. It fills in absent disk sizes,
 * gates a machine that belongs to a cluster on its owner, its cluster and the
 * cluster's infrastructure, adds the finalizer and stops, resolves the
 * provider, and hands over to the delete or the normal reconciliation.
 */
module Reconcile {
  import opened Common
  import opened Disks
  import opened Machine
  import opened Remote
  import opened Attempts
  import opened Provider
  import opened Provisioning
  import opened Deletion

  /** A store lookup: it failed, found nothing, or found a value. */
  datatype Lookup<T> = LookupFailed | Nil | Found(value: T)

  /** The owning cluster, as far as this controller reads it. */
  datatype ClusterState = ClusterState(infrastructureReady: bool, controlPlaneInitialized: bool)

  /**
   * Everything outside the record that one attempt reads: the owner Machine
   * lookup, the cluster lookup, the ScvmmCluster (None when it cannot be
   * fetched), the bootstrap data, whether the cloud-init medium can be
   * written, the provider store and the environment.
   */
  datatype World = World(
    machine: Lookup<OwnerMachine>,
    cluster: Lookup<ClusterState>,
    scvmmCluster: Option<ClusterInfo>,
    bootstrapData: Option<string>,
    cloudInitWritten: bool,
    store: Store,
    env: Environment)

  /** The gate either ends the attempt or lets it proceed with what it fetched. */
  datatype Gate = Blocked(a: Attempt) | Proceed(owner: Option<OwnerMachine>, controlPlaneInitialized: bool, cluster: Option<ClusterInfo>)

  const ClusterLabelName := "cluster.x-k8s.io/cluster-name"

  /** The record with every absent disk size set to zero (the patch-helper workaround). */
  function WithDiskSizes(st: St): (s: St)
    ensures s.rec.spec.disks == WithSizes(st.rec.spec.disks)
    ensures s.rec.spec.(disks := st.rec.spec.disks) == st.rec.spec
    ensures s.rec.(spec := st.rec.spec) == st.rec && s.trace == st.trace && s.writes == st.writes
  {
    st.(rec := st.rec.(spec := st.rec.spec.(disks := WithSizes(st.rec.spec.disks))))
  }

  /** The owner Machine and its cluster: either lookup can end the attempt. */
  function OwnerLookup(ctx: Ctx, w: World, st: St): (g: Gate)
    ensures g.Proceed? <==> w.machine.Found? && w.cluster.Found?
    ensures g.Proceed? ==> g.owner == Some(w.machine.value) && g.controlPlaneInitialized == w.cluster.value.controlPlaneInitialized
    ensures g.Blocked? ==> SendsOnly(st, g.a, {}) && !g.a.outcome.Panic?
  {
    match w.machine
    case LookupFailed => Blocked(Attempt(st, Failure))
    case Nil => Blocked(Reason(ctx, st, 0, false, VmCreated, WaitingForOwner, ""))
    case Found(owner) =>
      match w.cluster
      case LookupFailed =>
        Blocked(Reason(ctx, st, 0, true, VmCreated, MissingCluster,
                       "ScvmmMachine owner Machine is missing cluster label or cluster does not exist"))
      case Nil =>
        Blocked(Reason(ctx, st, 0, false, VmCreated, MissingCluster,
                       "Please associate this machine with a cluster using the label " + ClusterLabelName + ": <name of cluster>"))
      case Found(cluster) => Proceed(Some(owner), cluster.controlPlaneInitialized, None)
  }

  /**
   * The gate as the source writes it: the ScvmmCluster is fetched into a
   * pointer that was never allocated. The client refuses a nil target before
   * any lookup, so the fetch fails whether or not the ScvmmCluster exists,
   * and every owned machine whose owner and cluster were found stops with
   * ClusterNotAvailable.
   */
  function OwnerGateAsWritten(ctx: Ctx, w: World, st: St): (g: Gate)
    ensures g.Proceed? <==> st.rec.spec.cloudInit.Some?
    ensures g.Proceed? ==> g.cluster.None?
    ensures g.Blocked? ==> SendsOnly(st, g.a, {}) && !g.a.outcome.Panic?
  {
    if st.rec.spec.cloudInit.Some? then Proceed(None, false, None)
    else match OwnerLookup(ctx, w, st)
      case Blocked(a) => Blocked(a)
      case Proceed(_, _, _) => Blocked(Reason(ctx, st, 0, false, VmCreated, ClusterNotAvailable, ""))
  }

  /**
   * The gate with the ScvmmCluster kept: a machine with an owner proceeds
   * once its cluster's infrastructure is ready, carrying the ScvmmCluster on
   * to provider resolution; a stand-alone machine proceeds at once.
   */
  function OwnerGate(ctx: Ctx, w: World, st: St): (g: Gate)
    ensures g.Blocked? ==> SendsOnly(st, g.a, {}) && !g.a.outcome.Panic?
    ensures st.rec.spec.cloudInit.Some? ==> g == Proceed(None, false, None)
    ensures g.Proceed? && st.rec.spec.cloudInit.None? ==>
      && w.machine.Found? && w.cluster.Found? && w.cluster.value.infrastructureReady && w.scvmmCluster.Some?
      && g == Proceed(Some(w.machine.value), w.cluster.value.controlPlaneInitialized, w.scvmmCluster)
  {
    if st.rec.spec.cloudInit.Some? then Proceed(None, false, None)
    else match OwnerLookup(ctx, w, st)
      case Blocked(a) => Blocked(a)
      case Proceed(owner, cpi, _) =>
        if w.scvmmCluster.None? then Blocked(Reason(ctx, st, 0, false, VmCreated, ClusterNotAvailable, ""))
        else if !w.cluster.value.infrastructureReady then
          Blocked(Reason(ctx, st, 0, false, VmCreated, WaitingForClusterInfrastructure, ""))
        else Proceed(owner, cpi, w.scvmmCluster)
  }

  /** The provider reference of a stand-alone machine. */
  function MachineProviderRef(spec: MachineSpec): Option<ObjectRef>
  {
    if spec.cloudInit.Some? then spec.cloudInit.value.providerRef else None
  }

  /** The finalizer step: a machine that is not being deleted gets the finalizer and the attempt ends. */
  function AddFinalizer(ctx: Ctx, st: St): (a: Attempt)
    ensures a.st.rec.hasFinalizer && a.st.trace == st.trace && a.outcome == Done
    ensures a.st.rec.spec == st.rec.spec && a.st.rec.status == st.rec.status && a.st.rec.conditions == st.rec.conditions
    ensures a.st.writes == st.writes + (if ctx.patchOk then [a.st.rec] else [])
  {
    Attempt(Patched(ctx, st.(rec := st.rec.(hasFinalizer := true))), Done)
  }

  /**
   * Everything after the gate: a live machine without the finalizer only
   * gets it; otherwise a provider that cannot be resolved ends the attempt
   * quietly, and a resolved one hands over to deletion or provisioning.
   */
  function Proceeding(ctx: Ctx, w: World, st: St, owner: Option<OwnerMachine>, cpi: bool, cluster: Option<ClusterInfo>): (a: Attempt)
    ensures SendsOnly(st, a, {KGetVM, KGenerateVMName, KCreateADComputer, KCreateVM, KAddVMSpec, KExpandVMDisks,
                              KAddIsoToVM, KStartVM, KReadVM, KRemoveVM, KRemoveADComputer})
    ensures !st.rec.deleting && !st.rec.hasFinalizer ==> a.st.trace == st.trace && a.outcome == Done && a.st.rec.hasFinalizer
    ensures (st.rec.deleting || st.rec.hasFinalizer) && Resolve(cluster, MachineProviderRef(st.rec.spec), w.store, w.env).ResolveError? ==>
      a == Attempt(st, Done)
    ensures st.rec.deleting && Resolve(cluster, MachineProviderRef(st.rec.spec), w.store, w.env).Resolved? ==> a == Delete(ctx, st)
  {
    if !st.rec.deleting && !st.rec.hasFinalizer then AddFinalizer(ctx, st)
    else match Resolve(cluster, MachineProviderRef(st.rec.spec), w.store, w.env)
      case ResolveError(_) => Attempt(st, Done)
      case Crash => Attempt(st, Panic)
      case Resolved(p) =>
        if st.rec.deleting then Delete(ctx, st)
        else Normal(ctx, NormalInputs(owner, cpi, w.bootstrapData, w.cloudInitWritten, p.libraryISOs), st)
  }

  /**
   * One whole attempt of Reconcile (with the gate that keeps the
   * ScvmmCluster). No remote command is sent for a live machine before its
   * record carries the finalizer; once the gate passed and the provider
   * resolved, the attempt is the deletion or the normal reconciliation with
   * the provider's library path.
   */
  function ReconcileAttempt(ctx: Ctx, w: World, st: St): (a: Attempt)
    ensures var st0 := WithDiskSizes(st); var g := OwnerGate(ctx, w, st0);
      g.Proceed? && (st.rec.deleting || st.rec.hasFinalizer)
      && Resolve(g.cluster, MachineProviderRef(st.rec.spec), w.store, w.env).Resolved? ==>
        var p := Resolve(g.cluster, MachineProviderRef(st.rec.spec), w.store, w.env).provider;
        a == if st.rec.deleting then Delete(ctx, st0)
             else Normal(ctx, NormalInputs(g.owner, g.controlPlaneInitialized, w.bootstrapData, w.cloudInitWritten, p.libraryISOs), st0)
    ensures !st.rec.deleting && !st.rec.hasFinalizer ==> a.st.trace == st.trace
  {
    var st0 := WithDiskSizes(st);
    match OwnerGate(ctx, w, st0)
    case Blocked(a) => a
    case Proceed(owner, cpi, cluster) => Proceeding(ctx, w, st0, owner, cpi, cluster)
  }
}
