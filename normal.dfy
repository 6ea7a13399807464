/**
 * reconcileNormal as a function of what the attempt sees: discover the VM by
 * name, create it when it is not there, and otherwise bring a powered-off VM
 * up to its spec (merge the remote amendments, grow its disks, attach the
 * cloud-init medium or start it), wait for a starting VM, and copy the
 * addresses of a running one.
 */
module Provisioning {
  import opened Common
  import opened Disks
  import opened Machine
  import opened Remote
  import opened Attempts

  /** The owning Machine object, as far as this controller reads it. */
  datatype OwnerMachine = OwnerMachine(isControlPlane: bool, dataSecretName: Option<string>)

  /**
   * The inputs of reconcileNormal besides the record and the session: the
   * owner (absent for a stand-alone machine), whether the cluster's control
   * plane is initialised, the bootstrap data secret's value (None when it
   * cannot be read), whether the cloud-init medium could be written, and the
   * resolved provider's library path.
   */
  datatype NormalInputs = NormalInputs(
    owner: Option<OwnerMachine>,
    controlPlaneInitialized: bool,
    bootstrapData: Option<string>,
    cloudInitWritten: bool,
    library: string)

  /** The provider identifier for a VM id. */
  function ProviderIDFor(vmId: string, current: string): string
  {
    if vmId != "" then "scvmm://" + vmId else current
  }

  /** The record after a successful CreateVM under the chosen name. */
  function Created(rec: Record, name: string, vm: VMResult): Record
  {
    rec.(spec := rec.spec.(vmName := name, providerID := ProviderIDFor(vm.vmId, rec.spec.providerID)),
         status := rec.status.(ready := false, vmStatus := vm.status, biosGuid := vm.biosGuid,
                               creationTime := vm.creationTime, modifiedTime := vm.modifiedTime))
  }

  /** The record once the VM was found: VmCreated true and the status copied. */
  function Observed(rec: Record, vm: VMResult): Record
  {
    rec.(spec := rec.spec.(providerID := ProviderIDFor(vm.vmId, rec.spec.providerID)),
         status := rec.status.(ready := vm.status == "Running", vmStatus := vm.status, biosGuid := vm.biosGuid,
                               creationTime := vm.creationTime, modifiedTime := vm.modifiedTime),
         conditions := rec.conditions[VmCreated := TrueCondition])
  }

  /** The record after ExpandVMDisks: not ready, status copied from the result. */
  function Refreshed(rec: Record, vm: VMResult): Record
  {
    rec.(status := rec.status.(ready := false, vmStatus := vm.status, biosGuid := vm.biosGuid,
                               creationTime := vm.creationTime, modifiedTime := vm.modifiedTime))
  }

  /** One internal address per reported IPv4 address, in order. */
  function AddressesOf(ips: seq<string>): (r: seq<Address>)
    ensures |r| == |ips|
    ensures forall i :: 0 <= i < |ips| ==> r[i] == Address(InternalIP, ips[i])
  {
    seq(|ips|, i requires 0 <= i < |ips| => Address(InternalIP, ips[i]))
  }

  /** The record of a running VM: ready, its addresses and host name when reported, VmRunning true. */
  function RunningRecord(rec: Record, vm: VMResult): Record
  {
    rec.(status := rec.status.(ready := true,
                               addresses := if vm.ipv4Addresses.Some? then AddressesOf(vm.ipv4Addresses.value) else rec.status.addresses,
                               hostname := if vm.hostname != "" then vm.hostname else rec.status.hostname),
         conditions := rec.conditions[VmRunning := TrueCondition])
  }

  /** The path of the cloud-init medium in the library share. */
  function IsoPath(library: string, vmName: string): string
  {
    library + "\\" + vmName + "-cloud-init.iso"
  }

  /** A stand-alone machine has a cloud-init payload when any of its three parts is non-empty. */
  predicate HasPayload(ci: Option<CloudInit>)
  {
    ci.Some? && (ci.value.userData != "" || ci.value.metaData != "" || ci.value.networkConfig != "")
  }

  /** The CreateVM call for a spec under a chosen name. */
  function CreateVMCall(spec: MachineSpec, name: string): Command
  {
    CreateVM(spec.cloud, spec.hostGroup, name, spec.vmTemplate, ToMiB(spec.memory), spec.cpuCount,
             DiskElems(spec.disks), spec.vmNetwork, spec.hardwareProfile, spec.description,
             spec.startAction, spec.stopAction)
  }

  /** The last command sent is of kind `k`. */
  predicate LastSent(a: Attempt, k: Kind)
  {
    |a.st.trace| > 0 && KindOf(a.st.trace[|a.st.trace| - 1]) == k
  }

  /** CreateVM and what follows from its answer. */
  function CreateMachine(ctx: Ctx, st: St, name: string): (a: Attempt)
    ensures a.st.trace == st.trace + [CreateVMCall(st.rec.spec, name)]
    ensures SendsOnly(st, a, {KCreateVM}) && LastSent(a, KCreateVM)
    ensures !a.st.rec.status.ready
  {
    var c := CreateVMCall(st.rec.spec, name);
    var st1 := Sent(st, c);
    var a := match VMView(Next(ctx, st))
      case Failed => Reason(ctx, st1, 0, true, VmCreated, VmFailed, "Failed to create vm")
      case Decoded(vm) =>
        if vm.error != "" then Reason(ctx, st1, 0, false, VmCreated, VmFailed, "Failed to create vm: " + vm.error)
        else Reason(ctx, st1.(rec := Created(st1.rec, name, vm)), 10, false, VmCreated, VmCreating, "");
    SentThen(st, c, a, {});
    a
  }

  /** What follows CreateADComputer's answer `r`: CreateVM when the entry was made. */
  function AfterEntry(ctx: Ctx, st: St, name: string, r: Response<VMResult>): (a: Attempt)
    ensures SendsOnly(st, a, {KCreateVM})
    ensures Sends(st, a, KCreateVM) ==> LastSent(a, KCreateVM)
    ensures Sends(st, a, KCreateVM) ==> r.Decoded? && r.value.error == "" && a == CreateMachine(ctx, st, name)
    ensures !a.st.rec.status.ready
  {
    match r
    case Failed => Reason(ctx, st, 0, true, VmCreated, VmFailed, "Failed to create AD entry")
    case Decoded(vm) =>
      if vm.error != "" then Reason(ctx, st, 60, false, VmCreated, VmFailed, "Failed to create AD entry: " + vm.error)
      else CreateMachine(ctx, st, name)
  }

  /** The directory entry (when the spec asks for one), then the VM. */
  function CreateNamed(ctx: Ctx, st: St, name: string): (a: Attempt)
    ensures SendsOnly(st, a, {KCreateADComputer, KCreateVM})
    ensures Sends(st, a, KCreateVM) ==> LastSent(a, KCreateVM)
    ensures !a.st.rec.status.ready
  {
    match st.rec.spec.activeDirectory
    case None =>
      var a := CreateMachine(ctx, st, name);
      Widen(st, a, {KCreateVM}, {KCreateADComputer, KCreateVM});
      a
    case Some(ad) =>
      var c := CreateADComputer(name, ad.ouPath, ad.domainController, ad.description, ad.memberOf);
      var a := AfterEntry(ctx, Sent(st, c), name, VMView(Next(ctx, st)));
      SentThen(st, c, a, {KCreateVM});
      a
  }

  /** What follows GenerateVMName's answer `r`: the generated name, when there is one, is created. */
  function AfterGenerate(ctx: Ctx, st: St, r: Response<VMSpecResult>): (a: Attempt)
    ensures SendsOnly(st, a, {KCreateADComputer, KCreateVM})
    ensures Sends(st, a, KCreateVM) ==> LastSent(a, KCreateVM)
    ensures Sends(st, a, KCreateVM) ==>
      r.Decoded? && r.value.error == "" && r.value.spec.vmName != "" && a == CreateNamed(ctx, st, r.value.spec.vmName)
    ensures !a.st.rec.status.ready
  {
    match r
    case Failed => Reason(ctx, st, 0, true, VmCreated, VmFailed, "Failed generate vmname")
    case Decoded(ns) =>
      if ns.error != "" || ns.spec.vmName == "" then
        Reason(ctx, st, 0, false, VmCreated, VmFailed, "Failed generate vmname: " + ns.message)
      else CreateNamed(ctx, st, ns.spec.vmName)
  }

  /** The create path: choose a name when the spec has none, then create. */
  function Create(ctx: Ctx, st: St): (a: Attempt)
    ensures SendsOnly(st, a, {KGenerateVMName, KCreateADComputer, KCreateVM})
    ensures Sends(st, a, KGenerateVMName) <==> st.rec.spec.vmName == ""
    ensures Sends(st, a, KCreateVM) ==> LastSent(a, KCreateVM)
    ensures !a.st.rec.status.ready
  {
    if st.rec.spec.vmName == "" then
      var c := GenerateVMName(st.rec.spec);
      var a := AfterGenerate(ctx, Sent(st, c), SpecView(Next(ctx, st)));
      SentThen(st, c, a, {KCreateADComputer, KCreateVM});
      a
    else
      var a := CreateNamed(ctx, st, st.rec.spec.vmName);
      NotSent(st, a, {KCreateADComputer, KCreateVM}, KGenerateVMName);
      a
  }

  /** The VM's state after ExpandVMDisks, or the failure to expand. */
  function Expand(ctx: Ctx, st: St): (a: Attempt)
    ensures a.st.trace == st.trace + [ExpandVMDisks(st.rec.spec.vmName, DiskElems(st.rec.spec.disks))]
    ensures a.outcome == Failure || a.outcome == Done || a.outcome == Requeue(10)
    ensures !a.st.rec.status.ready
  {
    var st1 := Sent(st, ExpandVMDisks(st.rec.spec.vmName, DiskElems(st.rec.spec.disks)));
    match VMView(Next(ctx, st))
    case Failed => Reason(ctx, st1, 0, true, VmCreated, VmFailed, "Failed to expand disks")
    case Decoded(r) =>
      if r.error != "" then Reason(ctx, st1, 0, false, VmCreated, VmFailed, "Failed to create vm: " + r.error)
      else Reason(ctx, st1.(rec := Refreshed(st1.rec, r)), 10, false, VmCreated, VmUpdating, "")
  }

  /** After AddIsoToVM or StartVM: copy the reported status, patch, and come back in 10 seconds. */
  function Started(ctx: Ctx, st: St, r: VMResult): (a: Attempt)
    ensures !st.rec.status.ready ==> !a.st.rec.status.ready
    ensures a.st.trace == st.trace
    ensures a.outcome == if ctx.patchOk then Requeue(10) else Failure
  {
    var st1 := Patched(ctx, st.(rec := st.rec.(status := st.rec.status.(vmStatus := r.status))));
    Attempt(st1, if ctx.patchOk then Requeue(10) else Failure)
  }

  /** Write the cloud-init medium, mark VmRunning as starting, patch, attach the medium. */
  function Attach(ctx: Ctx, inp: NormalInputs, st: St): (a: Attempt)
    ensures !st.rec.status.ready ==> !a.st.rec.status.ready
    ensures SendsOnly(st, a, {KAddIsoToVM})
  {
    if !inp.cloudInitWritten then
      Reason(ctx, st, 0, true, VmCreated, WaitingForBootstrapData, "Failed to create cloud init data")
    else
      var st1 := Patched(ctx, st.(rec := st.rec.(conditions := st.rec.conditions[VmRunning := Condition(false, VmStarting, SeverityInfo, "")])));
      if !ctx.patchOk then Attempt(st1, Done)
      else
        var c := AddIsoToVM(st.rec.spec.vmName, IsoPath(inp.library, st.rec.spec.vmName));
        var a := match VMView(Next(ctx, st1))
          case Failed => Attempt(Sent(st1, c), Failure)
          case Decoded(r) => Started(ctx, Sent(st1, c), r);
        SentThen(st1, c, a, {});
        a
  }

  /** StartVM for a VM without a cloud-init payload. */
  function Start(ctx: Ctx, st: St): (a: Attempt)
    ensures !st.rec.status.ready ==> !a.st.rec.status.ready
    ensures a.st.trace == st.trace + [StartVM(st.rec.spec.vmName)]
    ensures SendsOnly(st, a, {KStartVM})
  {
    var c := StartVM(st.rec.spec.vmName);
    var a := match VMView(Next(ctx, st))
      case Failed => Attempt(Sent(st, c), Failure)
      case Decoded(r) => Started(ctx, Sent(st, c), r);
    SentThen(st, c, a, {});
    a
  }

  /** Bootstrap gating: wait for the control plane or the bootstrap data, then attach or start. */
  function Boot(ctx: Ctx, inp: NormalInputs, st: St): (a: Attempt)
    ensures !st.rec.status.ready ==> !a.st.rec.status.ready
    ensures SendsOnly(st, a, {KAddIsoToVM, KStartVM})
  {
    match inp.owner
    case Some(machine) =>
      if machine.dataSecretName.None? then
        if !machine.isControlPlane && !inp.controlPlaneInitialized then
          Reason(ctx, st, 0, false, VmCreated, WaitingForControlplaneAvailable, "")
        else Reason(ctx, st, 0, false, VmCreated, WaitingForBootstrapData, "")
      else if inp.bootstrapData.None? then
        Reason(ctx, st, 0, true, VmCreated, WaitingForBootstrapData, "Failed to get bootstrap data")
      else Attach(ctx, inp, st)
    case None =>
      if HasPayload(st.rec.spec.cloudInit) then Attach(ctx, inp, st) else Start(ctx, st)
  }

  /** Grow the disks when one is short, otherwise boot; indexing past the reported disks panics. */
  function Resize(ctx: Ctx, inp: NormalInputs, st: St, vm: VMResult): (a: Attempt)
    ensures !st.rec.status.ready ==> !a.st.rec.status.ready
    ensures SendsOnly(st, a, {KExpandVMDisks, KAddIsoToVM, KStartVM})
  {
    var disks := st.rec.spec.disks;
    if !IndexedSafely(disks, vm.virtualDisks) then Attempt(st, Panic)
    else if AnyExpandNeeded(disks, vm.virtualDisks) then Expand(ctx, st)
    else Boot(ctx, inp, st)
  }

  /** What follows AddVMSpec's answer `r`: merge the echoed spec (writing it when it changed), then resize. */
  function AfterAddSpec(ctx: Ctx, inp: NormalInputs, st: St, vm: VMResult, r: Response<VMSpecResult>): (a: Attempt)
    ensures !st.rec.status.ready ==> !a.st.rec.status.ready
    ensures SendsOnly(st, a, {KExpandVMDisks, KAddIsoToVM, KStartVM})
  {
    match r
    case Failed => Reason(ctx, st, 0, true, VmCreated, VmFailed, "Failed calling add spec function")
    case Decoded(ns) =>
      if ns.error != "" then Reason(ctx, st, 60, false, VmCreated, VmFailed, "Failed calling add spec function: " + ns.message)
      else
        var merged := CopyNonZeroTo(ns.spec, st.rec.spec);
        var st1 := st.(rec := st.rec.(spec := merged.spec));
        if merged.changed then
          var st2 := Patched(ctx, st1);
          if !ctx.patchOk then Attempt(st2, Done) else Resize(ctx, inp, st2, vm)
        else Resize(ctx, inp, st1, vm)
  }

  /** The powered-off branch: AddVMSpec, merge the echoed spec, then resize or boot. */
  function PoweredOff(ctx: Ctx, inp: NormalInputs, st: St, vm: VMResult): (a: Attempt)
    ensures !st.rec.status.ready ==> !a.st.rec.status.ready
    ensures SendsOnly(st, a, {KAddVMSpec, KExpandVMDisks, KAddIsoToVM, KStartVM})
  {
    var c := AddVMSpec(st.rec.spec);
    var a := AfterAddSpec(ctx, inp, Sent(st, c), vm, SpecView(Next(ctx, st)));
    SentThen(st, c, a, {KExpandVMDisks, KAddIsoToVM, KStartVM});
    a
  }

  /** A running VM: ready, addresses and host name, VmRunning true; read the VM again while its addresses are unknown. */
  function Running(ctx: Ctx, st: St, vm: VMResult): (a: Attempt)
    ensures SendsOnly(st, a, {KReadVM})
  {
    var st1 := Patched(ctx, st.(rec := RunningRecord(st.rec, vm)));
    if !ctx.patchOk then Attempt(st1, Failure)
    else if vm.ipv4Addresses.None? || vm.hostname == "" then
      var c := ReadVM(st.rec.spec.vmName);
      var a := Attempt(Sent(st1, c), if VMView(Next(ctx, st1)).Failed? then Failure else Requeue(60));
      SentThen(st1, c, a, {});
      a
    else Attempt(st1, Done)
  }

  /** The VM exists: record what was found, then act on its power state. */
  function Found(ctx: Ctx, inp: NormalInputs, st: St, vm: VMResult): (a: Attempt)
    ensures SendsOnly(st, a, {KAddVMSpec, KExpandVMDisks, KAddIsoToVM, KStartVM, KReadVM})
    ensures a.st.rec.status.ready ==> vm.status == "Running"
  {
    var st1 := st.(rec := Observed(st.rec, vm));
    if vm.status == "PowerOff" then PoweredOff(ctx, inp, st1, vm)
    else if vm.status != "Running" then Reason(ctx, st1, 30, false, VmRunning, VmStarting, "")
    else Running(ctx, st1, vm)
  }

  /**
   * What follows the lookup by name: a failed lookup ends the attempt, an
   * empty name means the VM does not exist and is created, otherwise the
   * found VM is acted on. The spec's name is kept, so no name is generated.
   */
  function AfterLookup(ctx: Ctx, inp: NormalInputs, st: St, r: Response<VMResult>): (a: Attempt)
    requires st.rec.spec.vmName != ""
    ensures SendsOnly(st, a, {KGenerateVMName, KCreateADComputer, KCreateVM, KAddVMSpec, KExpandVMDisks, KAddIsoToVM, KStartVM, KReadVM})
    ensures !Sends(st, a, KGenerateVMName)
    ensures Sends(st, a, KCreateADComputer) || Sends(st, a, KCreateVM) ==> r.Decoded? && r.value.name == ""
    ensures Sends(st, a, KCreateVM) ==> LastSent(a, KCreateVM)
  {
    match r
    case Failed => Attempt(st, Failure)
    case Decoded(vm) => if vm.name == "" then CreateNamedVM(ctx, st) else FoundNamedVM(ctx, inp, st, vm)
  }

  /** The create path for a spec that names a VM the lookup did not find. */
  function CreateNamedVM(ctx: Ctx, st: St): (a: Attempt)
    requires st.rec.spec.vmName != ""
    ensures SendsOnly(st, a, {KGenerateVMName, KCreateADComputer, KCreateVM, KAddVMSpec, KExpandVMDisks, KAddIsoToVM, KStartVM, KReadVM})
    ensures !Sends(st, a, KGenerateVMName)
    ensures Sends(st, a, KCreateVM) ==> LastSent(a, KCreateVM)
  {
    var a := Create(ctx, st);
    Widen(st, a, {KGenerateVMName, KCreateADComputer, KCreateVM},
          {KGenerateVMName, KCreateADComputer, KCreateVM, KAddVMSpec, KExpandVMDisks, KAddIsoToVM, KStartVM, KReadVM});
    a
  }

  /** The commands the found-VM path may send include no name generation and no creation. */
  lemma FoundCreatesNothing(st: St, a: Attempt)
    requires SendsOnly(st, a, {KAddVMSpec, KExpandVMDisks, KAddIsoToVM, KStartVM, KReadVM})
    ensures SendsOnly(st, a, {KGenerateVMName, KCreateADComputer, KCreateVM, KAddVMSpec, KExpandVMDisks, KAddIsoToVM, KStartVM, KReadVM})
    ensures !Sends(st, a, KGenerateVMName) && !Sends(st, a, KCreateADComputer) && !Sends(st, a, KCreateVM)
  {
  }

  /** The found-VM path, which creates nothing. */
  function FoundNamedVM(ctx: Ctx, inp: NormalInputs, st: St, vm: VMResult): (a: Attempt)
    ensures SendsOnly(st, a, {KGenerateVMName, KCreateADComputer, KCreateVM, KAddVMSpec, KExpandVMDisks, KAddIsoToVM, KStartVM, KReadVM})
    ensures !Sends(st, a, KGenerateVMName) && !Sends(st, a, KCreateADComputer) && !Sends(st, a, KCreateVM)
  {
    var a := Found(ctx, inp, st, vm);
    FoundCreatesNothing(st, a);
    a
  }

  /**
   * reconcileNormal. Discovery comes first: GetVM is sent exactly when the
   * session opens and the spec names a VM, and then before anything else; a
   * name is generated only for a spec without one; the directory entry and
   * the VM are created only when the spec names no VM or the lookup found
   * none; and CreateVM is the last command of its attempt.
   */
  function Normal(ctx: Ctx, inp: NormalInputs, st: St): (a: Attempt)
    ensures SendsOnly(st, a, {KGetVM, KGenerateVMName, KCreateADComputer, KCreateVM, KAddVMSpec,
                              KExpandVMDisks, KAddIsoToVM, KStartVM, KReadVM})
    ensures Sends(st, a, KGetVM) <==> ctx.opens && st.rec.spec.vmName != ""
    ensures Sends(st, a, KGetVM) ==> a.st.trace[|st.trace|] == GetVM(st.rec.spec.vmName)
    ensures Sends(st, a, KGenerateVMName) ==> st.rec.spec.vmName == ""
    ensures Sends(st, a, KCreateADComputer) || Sends(st, a, KCreateVM) ==>
      st.rec.spec.vmName == "" || (Next(ctx, st).Document? && Next(ctx, st).vm.name == "")
    ensures Sends(st, a, KCreateVM) ==> LastSent(a, KCreateVM)
  {
    if !ctx.opens then Attempt(st, Failure)
    else if st.rec.spec.vmName != "" then
      var c := GetVM(st.rec.spec.vmName);
      var a := AfterLookup(ctx, inp, Sent(st, c), VMView(Next(ctx, st)));
      SentThen(st, c, a, {KGenerateVMName, KCreateADComputer, KCreateVM, KAddVMSpec, KExpandVMDisks, KAddIsoToVM, KStartVM, KReadVM});
      a
    else
      var a := Create(ctx, st);
      NotSent(st, a, {KGenerateVMName, KCreateADComputer, KCreateVM}, KGetVM);
      a
  }
}
