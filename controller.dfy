/**
 * The reconciler as the controller runs it: one ScvmmMachine object edited in
 * place, one remote session whose commands are recorded in order, and one
 * patch helper that writes the object back. Every method is proved to leave
 * the object, the session and the store exactly as the matching function of
 * the attempt model says, so the properties proved there hold of the code.
 */
module Controller {
  import opened Common
  import opened Disks
  import opened Machine
  import opened Remote
  import opened Attempts
  import P = Provisioning
  import D = Deletion
  import R = Reconcile
  import opened Provider

  /** The record, the commands sent and the writes made, as one attempt state. */
  ghost function State(m: ScvmmMachine, s: Session, h: PatchHelper): St
    reads m, s, h
  {
    St(m.Value(), s.trace, h.writes)
  }

  /** What the attempt cannot influence: the session's answers and whether the store accepts writes. */
  function CtxOf(s: Session, h: PatchHelper): Ctx
  {
    Ctx(s.opens, s.script, !h.rejects)
  }

  /** patchScvmmMachine: summarise the two conditions into the ready condition, then write the object. */
  method PatchScvmmMachine(m: ScvmmMachine, s: Session, h: PatchHelper) returns (ok: bool)
    modifies m, h
    ensures ok == !h.rejects
    ensures State(m, s, h) == Patched(CtxOf(s, h), old(State(m, s, h)))
  {
    m.SetSummary();
    ok := h.Patch(m);
  }

  /**
   * patchReasonCondition: not ready, the condition false with the reason and
   * message (an error severity when there is an error), patch (a failed
   * patch is only logged), then the error, the requeue or nothing.
   */
  method PatchReasonCondition(m: ScvmmMachine, s: Session, h: PatchHelper, requeue: nat, failed: bool,
                              cond: CondType, reason: string, message: string) returns (outcome: Outcome)
    modifies m, h
    ensures Attempt(State(m, s, h), outcome) == Reason(CtxOf(s, h), old(State(m, s, h)), requeue, failed, cond, reason, message)
  {
    m.status := m.status.(ready := false);
    if failed {
      m.MarkFalse(cond, reason, SeverityError, message);
    } else {
      m.MarkFalse(cond, reason, SeverityInfo, message);
    }
    var ok := PatchScvmmMachine(m, s, h);
    if failed {
      outcome := Failure;
    } else if requeue != 0 {
      outcome := Requeue(requeue);
    } else {
      outcome := Done;
    }
  }

  /** CreateVM under the chosen name, and the record filled in from its answer. */
  method CreateMachine(m: ScvmmMachine, s: Session, h: PatchHelper, name: string) returns (outcome: Outcome)
    requires s.Valid()
    modifies m, s, h
    ensures s.Valid()
    ensures Attempt(State(m, s, h), outcome) == P.CreateMachine(CtxOf(s, h), old(State(m, s, h)), name)
  {
    ghost var st := State(m, s, h);
    var spec := m.spec;
    var elems := MakeDiskElems(spec.disks);
    var c := CreateVM(spec.cloud, spec.hostGroup, name, spec.vmTemplate, ToMiB(spec.memory), spec.cpuCount,
                      elems, spec.vmNetwork, spec.hardwareProfile, spec.description, spec.startAction, spec.stopAction);
    assert c == P.CreateVMCall(spec, name);
    var r := s.Send(c);
    assert State(m, s, h) == Sent(st, c);
    match r
    case Failed =>
      outcome := PatchReasonCondition(m, s, h, 0, true, VmCreated, VmFailed, "Failed to create vm");
    case Decoded(vm) =>
      if vm.error != "" {
        outcome := PatchReasonCondition(m, s, h, 0, false, VmCreated, VmFailed, "Failed to create vm: " + vm.error);
      } else {
        m.spec := m.spec.(vmName := name);
        if vm.vmId != "" {
          m.spec := m.spec.(providerID := "scvmm://" + vm.vmId);
        }
        m.status := m.status.(ready := false, vmStatus := vm.status, biosGuid := vm.biosGuid,
                              creationTime := vm.creationTime, modifiedTime := vm.modifiedTime);
        assert State(m, s, h) == Sent(st, c).(rec := P.Created(st.rec, name, vm));
        outcome := PatchReasonCondition(m, s, h, 10, false, VmCreated, VmCreating, "");
      }
  }

  /** The directory entry (when the spec asks for one), then CreateVM. */
  method CreateNamed(m: ScvmmMachine, s: Session, h: PatchHelper, name: string) returns (outcome: Outcome)
    requires s.Valid()
    modifies m, s, h
    ensures s.Valid()
    ensures Attempt(State(m, s, h), outcome) == P.CreateNamed(CtxOf(s, h), old(State(m, s, h)), name)
  {
    match m.spec.activeDirectory
    case None =>
      outcome := CreateMachine(m, s, h, name);
    case Some(ad) =>
      var r := s.Send(CreateADComputer(name, ad.ouPath, ad.domainController, ad.description, ad.memberOf));
      match r
      case Failed =>
        outcome := PatchReasonCondition(m, s, h, 0, true, VmCreated, VmFailed, "Failed to create AD entry");
      case Decoded(v) =>
        if v.error != "" {
          outcome := PatchReasonCondition(m, s, h, 60, false, VmCreated, VmFailed, "Failed to create AD entry: " + v.error);
        } else {
          outcome := CreateMachine(m, s, h, name);
        }
  }

  /** The create path of reconcileNormal: generate a name when the spec has none, then create. */
  method Create(m: ScvmmMachine, s: Session, h: PatchHelper) returns (outcome: Outcome)
    requires s.Valid()
    modifies m, s, h
    ensures s.Valid()
    ensures Attempt(State(m, s, h), outcome) == P.Create(CtxOf(s, h), old(State(m, s, h)))
  {
    var name := m.spec.vmName;
    if name == "" {
      var r := s.SendSpec(GenerateVMName(m.spec));
      match r
      case Failed =>
        outcome := PatchReasonCondition(m, s, h, 0, true, VmCreated, VmFailed, "Failed generate vmname");
        return;
      case Decoded(ns) =>
        if ns.error != "" || ns.spec.vmName == "" {
          outcome := PatchReasonCondition(m, s, h, 0, false, VmCreated, VmFailed, "Failed generate vmname: " + ns.message);
          return;
        }
        name := ns.spec.vmName;
    }
    outcome := CreateNamed(m, s, h, name);
  }

  /** ExpandVMDisks with the spec's disks, and the record refreshed from its answer. */
  method Expand(m: ScvmmMachine, s: Session, h: PatchHelper) returns (outcome: Outcome)
    requires s.Valid()
    modifies m, s, h
    ensures s.Valid()
    ensures Attempt(State(m, s, h), outcome) == P.Expand(CtxOf(s, h), old(State(m, s, h)))
  {
    ghost var st := State(m, s, h);
    var elems := MakeDiskElems(m.spec.disks);
    var c := ExpandVMDisks(m.spec.vmName, elems);
    var r := s.Send(c);
    assert State(m, s, h) == Sent(st, c);
    match r
    case Failed =>
      outcome := PatchReasonCondition(m, s, h, 0, true, VmCreated, VmFailed, "Failed to expand disks");
    case Decoded(v) =>
      if v.error != "" {
        outcome := PatchReasonCondition(m, s, h, 0, false, VmCreated, VmFailed, "Failed to create vm: " + v.error);
      } else {
        m.status := m.status.(ready := false, vmStatus := v.status, biosGuid := v.biosGuid,
                              creationTime := v.creationTime, modifiedTime := v.modifiedTime);
        outcome := PatchReasonCondition(m, s, h, 10, false, VmCreated, VmUpdating, "");
      }
  }

  /** After AddIsoToVM or StartVM: copy the reported status, patch, and come back in 10 seconds. */
  method Started(m: ScvmmMachine, s: Session, h: PatchHelper, v: VMResult) returns (outcome: Outcome)
    modifies m, h
    ensures Attempt(State(m, s, h), outcome) == P.Started(CtxOf(s, h), old(State(m, s, h)), v)
  {
    m.status := m.status.(vmStatus := v.status);
    var ok := PatchScvmmMachine(m, s, h);
    if !ok {
      outcome := Failure;
    } else {
      outcome := Requeue(10);
    }
  }

  /** Write the cloud-init medium, mark VmRunning as starting, patch, and attach the medium. */
  method Attach(m: ScvmmMachine, s: Session, h: PatchHelper, inp: P.NormalInputs) returns (outcome: Outcome)
    requires s.Valid()
    modifies m, s, h
    ensures s.Valid()
    ensures Attempt(State(m, s, h), outcome) == P.Attach(CtxOf(s, h), inp, old(State(m, s, h)))
  {
    if !inp.cloudInitWritten {
      outcome := PatchReasonCondition(m, s, h, 0, true, VmCreated, WaitingForBootstrapData, "Failed to create cloud init data");
      return;
    }
    m.MarkFalse(VmRunning, VmStarting, SeverityInfo, "");
    var ok := PatchScvmmMachine(m, s, h);
    if !ok {
      outcome := Done;
      return;
    }
    var r := s.Send(AddIsoToVM(m.spec.vmName, P.IsoPath(inp.library, m.spec.vmName)));
    match r
    case Failed =>
      outcome := Failure;
    case Decoded(v) =>
      outcome := Started(m, s, h, v);
  }

  /** StartVM, for a VM without a cloud-init payload. */
  method Start(m: ScvmmMachine, s: Session, h: PatchHelper) returns (outcome: Outcome)
    requires s.Valid()
    modifies m, s, h
    ensures s.Valid()
    ensures Attempt(State(m, s, h), outcome) == P.Start(CtxOf(s, h), old(State(m, s, h)))
  {
    var r := s.Send(StartVM(m.spec.vmName));
    match r
    case Failed =>
      outcome := Failure;
    case Decoded(v) =>
      outcome := Started(m, s, h, v);
  }

  /** Bootstrap gating: wait for the control plane or the bootstrap data, then attach or start. */
  method Boot(m: ScvmmMachine, s: Session, h: PatchHelper, inp: P.NormalInputs) returns (outcome: Outcome)
    requires s.Valid()
    modifies m, s, h
    ensures s.Valid()
    ensures Attempt(State(m, s, h), outcome) == P.Boot(CtxOf(s, h), inp, old(State(m, s, h)))
  {
    match inp.owner
    case Some(machine) =>
      if machine.dataSecretName.None? {
        if !machine.isControlPlane && !inp.controlPlaneInitialized {
          outcome := PatchReasonCondition(m, s, h, 0, false, VmCreated, WaitingForControlplaneAvailable, "");
        } else {
          outcome := PatchReasonCondition(m, s, h, 0, false, VmCreated, WaitingForBootstrapData, "");
        }
      } else if inp.bootstrapData.None? {
        outcome := PatchReasonCondition(m, s, h, 0, true, VmCreated, WaitingForBootstrapData, "Failed to get bootstrap data");
      } else {
        outcome := Attach(m, s, h, inp);
      }
    case None =>
      if P.HasPayload(m.spec.cloudInit) {
        outcome := Attach(m, s, h, inp);
      } else {
        outcome := Start(m, s, h);
      }
  }

  /** The expand check over the merged disks, then the expand or the boot. */
  method Resize(m: ScvmmMachine, s: Session, h: PatchHelper, inp: P.NormalInputs, vm: VMResult) returns (outcome: Outcome)
    requires s.Valid()
    modifies m, s, h
    ensures s.Valid()
    ensures Attempt(State(m, s, h), outcome) == P.Resize(CtxOf(s, h), inp, old(State(m, s, h)), vm)
  {
    var doexpand, panics := NeedsExpand(m.spec.disks, vm.virtualDisks);
    if panics {
      outcome := Panic;
    } else if doexpand {
      outcome := Expand(m, s, h);
    } else {
      outcome := Boot(m, s, h, inp);
    }
  }

  /** The powered-off branch: AddVMSpec, merge the echoed spec (writing it when it changed), then resize. */
  method PoweredOff(m: ScvmmMachine, s: Session, h: PatchHelper, inp: P.NormalInputs, vm: VMResult) returns (outcome: Outcome)
    requires s.Valid()
    modifies m, s, h
    ensures s.Valid()
    ensures Attempt(State(m, s, h), outcome) == P.PoweredOff(CtxOf(s, h), inp, old(State(m, s, h)), vm)
  {
    var r := s.SendSpec(AddVMSpec(m.spec));
    match r
    case Failed =>
      outcome := PatchReasonCondition(m, s, h, 0, true, VmCreated, VmFailed, "Failed calling add spec function");
    case Decoded(ns) =>
      if ns.error != "" {
        outcome := PatchReasonCondition(m, s, h, 60, false, VmCreated, VmFailed, "Failed calling add spec function: " + ns.message);
        return;
      }
      var merged := CopyNonZeroTo(ns.spec, m.spec);
      m.spec := merged.spec;
      if merged.changed {
        var ok := PatchScvmmMachine(m, s, h);
        if !ok {
          outcome := Done;
          return;
        }
      }
      outcome := Resize(m, s, h, inp, vm);
  }

  /** The machine addresses of a running VM: one internal address per reported IPv4 address, in order. */
  method MakeAddresses(ips: seq<string>) returns (addrs: seq<Address>)
    ensures addrs == P.AddressesOf(ips)
  {
    var arr := new Address[|ips|](_ => Address(InternalIP, ""));
    for i := 0 to |ips|
      invariant forall j :: 0 <= j < i ==> arr[j] == Address(InternalIP, ips[j])
    {
      arr[i] := Address(InternalIP, ips[i]);
    }
    addrs := arr[..];
  }

  /** A running VM: ready, addresses and host name, VmRunning true; read the VM again while its addresses are unknown. */
  method Running(m: ScvmmMachine, s: Session, h: PatchHelper, vm: VMResult) returns (outcome: Outcome)
    requires s.Valid()
    modifies m, s, h
    ensures s.Valid()
    ensures Attempt(State(m, s, h), outcome) == P.Running(CtxOf(s, h), old(State(m, s, h)), vm)
  {
    m.status := m.status.(ready := true);
    if vm.ipv4Addresses.Some? {
      var addrs := MakeAddresses(vm.ipv4Addresses.value);
      m.status := m.status.(addresses := addrs);
    }
    if vm.hostname != "" {
      m.status := m.status.(hostname := vm.hostname);
    }
    m.MarkTrue(VmRunning);
    var ok := PatchScvmmMachine(m, s, h);
    if !ok {
      outcome := Failure;
      return;
    }
    if vm.ipv4Addresses.None? || vm.hostname == "" {
      var r := s.Send(ReadVM(m.spec.vmName));
      if r.Failed? {
        outcome := Failure;
      } else {
        outcome := Requeue(60);
      }
      return;
    }
    outcome := Done;
  }

  /** The VM exists: record what was found, then act on its power state. */
  method Found(m: ScvmmMachine, s: Session, h: PatchHelper, inp: P.NormalInputs, vm: VMResult) returns (outcome: Outcome)
    requires s.Valid()
    modifies m, s, h
    ensures s.Valid()
    ensures Attempt(State(m, s, h), outcome) == P.Found(CtxOf(s, h), inp, old(State(m, s, h)), vm)
  {
    ghost var st := State(m, s, h);
    m.MarkTrue(VmCreated);
    if vm.vmId != "" {
      m.spec := m.spec.(providerID := "scvmm://" + vm.vmId);
    }
    m.status := m.status.(ready := vm.status == "Running", vmStatus := vm.status, biosGuid := vm.biosGuid,
                          creationTime := vm.creationTime, modifiedTime := vm.modifiedTime);
    assert State(m, s, h) == st.(rec := P.Observed(st.rec, vm));
    if vm.status == "PowerOff" {
      outcome := PoweredOff(m, s, h, inp, vm);
    } else if vm.status != "Running" {
      outcome := PatchReasonCondition(m, s, h, 30, false, VmRunning, VmStarting, "");
    } else {
      outcome := Running(m, s, h, vm);
    }
  }

  /** reconcileNormal: look the VM up by name, then create it or act on it. */
  method ReconcileNormal(m: ScvmmMachine, s: Session, h: PatchHelper, inp: P.NormalInputs) returns (outcome: Outcome)
    requires s.Valid()
    modifies m, s, h
    ensures s.Valid()
    ensures Attempt(State(m, s, h), outcome) == P.Normal(CtxOf(s, h), inp, old(State(m, s, h)))
  {
    if !s.opens {
      outcome := Failure;
      return;
    }
    var found: Option<VMResult> := None;
    if m.spec.vmName != "" {
      var r := s.Send(GetVM(m.spec.vmName));
      if r.Failed? {
        outcome := Failure;
        return;
      }
      if r.value.name != "" {
        found := Some(r.value);
      }
    }
    if found.None? {
      outcome := Create(m, s, h);
    } else {
      outcome := Found(m, s, h, inp, found.value);
    }
  }

  /** The finalizer removed and the record patched. */
  method Unfinalize(m: ScvmmMachine, s: Session, h: PatchHelper) returns (outcome: Outcome)
    modifies m, h
    ensures Attempt(State(m, s, h), outcome) == D.Unfinalize(CtxOf(s, h), old(State(m, s, h)))
  {
    m.hasFinalizer := false;
    var ok := PatchScvmmMachine(m, s, h);
    if !ok {
      outcome := Failure;
    } else {
      outcome := Done;
    }
  }

  /** RemoveADComputer when the spec names a directory entry, then the finalizer. */
  method RemoveDirectoryEntry(m: ScvmmMachine, s: Session, h: PatchHelper) returns (outcome: Outcome)
    requires s.Valid()
    modifies m, s, h
    ensures s.Valid()
    ensures Attempt(State(m, s, h), outcome) == D.RemoveDirectoryEntry(CtxOf(s, h), old(State(m, s, h)))
  {
    match m.spec.activeDirectory
    case None =>
      outcome := Unfinalize(m, s, h);
    case Some(ad) =>
      var r := s.Send(RemoveADComputer(m.spec.vmName, ad.ouPath, ad.domainController));
      match r
      case Failed =>
        outcome := PatchReasonCondition(m, s, h, 0, true, VmCreated, VmFailed, "Failed to remove AD entry");
      case Decoded(v) =>
        if v.error != "" {
          outcome := PatchReasonCondition(m, s, h, 60, false, VmCreated, VmFailed, "Failed to remove AD entry: " + v.error);
        } else {
          outcome := Unfinalize(m, s, h);
        }
  }

  /** RemoveVM, then the directory entry and the finalizer once the VM is reported removed. */
  method RemoveMachine(m: ScvmmMachine, s: Session, h: PatchHelper) returns (outcome: Outcome)
    requires s.Valid()
    modifies m, s, h
    ensures s.Valid()
    ensures Attempt(State(m, s, h), outcome) == D.RemoveMachine(CtxOf(s, h), old(State(m, s, h)))
  {
    var r := s.Send(RemoveVM(m.spec.vmName));
    match r
    case Failed =>
      outcome := PatchReasonCondition(m, s, h, 0, true, VmCreated, VmFailed, "Failed to delete VM");
    case Decoded(v) =>
      if v.error != "" {
        outcome := PatchReasonCondition(m, s, h, 60, false, VmCreated, VmFailed, "Failed to delete VM: " + v.error);
      } else if v.message == "Removed" {
        outcome := RemoveDirectoryEntry(m, s, h);
      } else {
        m.status := m.status.(vmStatus := v.status, creationTime := v.creationTime, modifiedTime := v.modifiedTime);
        outcome := PatchReasonCondition(m, s, h, 30, false, VmCreated, VmDeleting, "");
      }
  }

  /** reconcileDelete. */
  method ReconcileDelete(m: ScvmmMachine, s: Session, h: PatchHelper) returns (outcome: Outcome)
    requires s.Valid()
    modifies m, s, h
    ensures s.Valid()
    ensures Attempt(State(m, s, h), outcome) == D.Delete(CtxOf(s, h), old(State(m, s, h)))
  {
    if !m.hasFinalizer {
      outcome := Done;
      return;
    }
    if m.spec.vmName == "" {
      outcome := Unfinalize(m, s, h);
      return;
    }
    m.MarkFalse(VmCreated, VmDeleting, SeverityInfo, "");
    var ok := PatchScvmmMachine(m, s, h);
    if !ok || !s.opens {
      outcome := Failure;
      return;
    }
    outcome := RemoveMachine(m, s, h);
  }

  /**
   * The owner gate of Reconcile: a machine without a cloud-init section
   * waits for its owner Machine, its cluster, the ScvmmCluster and the
   * cluster's infrastructure. Either the attempt ends here with `outcome`,
   * or it proceeds, with nothing changed, carrying what it fetched.
   */
  method Gate(m: ScvmmMachine, s: Session, h: PatchHelper, w: R.World)
    returns (proceed: bool, outcome: Outcome, owner: Option<P.OwnerMachine>, cpi: bool, cluster: Option<ClusterInfo>)
    modifies m, h
    ensures proceed ==> State(m, s, h) == old(State(m, s, h))
    ensures proceed ==> R.OwnerGate(CtxOf(s, h), w, old(State(m, s, h))) == R.Proceed(owner, cpi, cluster)
    ensures !proceed ==> R.OwnerGate(CtxOf(s, h), w, old(State(m, s, h))) == R.Blocked(Attempt(State(m, s, h), outcome))
  {
    proceed, outcome, owner, cpi, cluster := true, Done, None, false, None;
    if m.spec.cloudInit.Some? {
      return;
    }
    proceed := false;
    match w.machine
    case LookupFailed =>
      outcome := Failure;
    case Nil =>
      outcome := PatchReasonCondition(m, s, h, 0, false, VmCreated, WaitingForOwner, "");
    case Found(machine) =>
      match w.cluster
      case LookupFailed =>
        outcome := PatchReasonCondition(m, s, h, 0, true, VmCreated, MissingCluster,
                                        "ScvmmMachine owner Machine is missing cluster label or cluster does not exist");
      case Nil =>
        outcome := PatchReasonCondition(m, s, h, 0, false, VmCreated, MissingCluster,
                                        "Please associate this machine with a cluster using the label " + R.ClusterLabelName + ": <name of cluster>");
      case Found(c) =>
        if w.scvmmCluster.None? {
          outcome := PatchReasonCondition(m, s, h, 0, false, VmCreated, ClusterNotAvailable, "");
        } else if !c.infrastructureReady {
          outcome := PatchReasonCondition(m, s, h, 0, false, VmCreated, WaitingForClusterInfrastructure, "");
        } else {
          proceed, owner, cpi, cluster := true, Some(machine), c.controlPlaneInitialized, w.scvmmCluster;
        }
  }

  /** After the gate: the finalizer, the provider, then the delete or the normal reconciliation. */
  method Proceed(m: ScvmmMachine, s: Session, h: PatchHelper, w: R.World, owner: Option<P.OwnerMachine>, cpi: bool, cluster: Option<ClusterInfo>)
    returns (outcome: Outcome)
    requires s.Valid()
    modifies m, s, h
    ensures s.Valid()
    ensures Attempt(State(m, s, h), outcome) == R.Proceeding(CtxOf(s, h), w, old(State(m, s, h)), owner, cpi, cluster)
  {
    if !m.deleting && !m.hasFinalizer {
      m.hasFinalizer := true;
      var _ := PatchScvmmMachine(m, s, h);
      outcome := Done;
      return;
    }
    var provider := GetProvider(cluster, R.MachineProviderRef(m.spec), w.store, w.env);
    match provider
    case ResolveError(_) =>
      outcome := Done;
    case Crash =>
      outcome := Panic;
    case Resolved(p) =>
      if m.deleting {
        outcome := ReconcileDelete(m, s, h);
      } else {
        outcome := ReconcileNormal(m, s, h, P.NormalInputs(owner, cpi, w.bootstrapData, w.cloudInitWritten, p.libraryISOs));
      }
  }

  /**
   * One attempt of Reconcile on the record `m`: fill absent disk sizes, gate
   * the machine on its owner, then carry on.
   */
  method Reconcile(m: ScvmmMachine, s: Session, h: PatchHelper, w: R.World) returns (outcome: Outcome)
    requires s.Valid()
    modifies m, s, h
    ensures s.Valid()
    ensures Attempt(State(m, s, h), outcome) == R.ReconcileAttempt(CtxOf(s, h), w, old(State(m, s, h)))
  {
    ghost var st := State(m, s, h);
    var filled := FillDiskSizes(m.spec.disks);
    m.spec := m.spec.(disks := filled);
    assert State(m, s, h) == R.WithDiskSizes(st);
    var proceed, owner, cpi, cluster;
    proceed, outcome, owner, cpi, cluster := Gate(m, s, h, w);
    if proceed {
      outcome := Proceed(m, s, h, w, owner, cpi, cluster);
    }
  }
}
