/**
 * What reconcileNormal promises, for every record and every sequence of
 * remote answers: the VM is looked up before anything is created, a
 * creation ends the attempt, disks are grown exactly when one is short, and
 * the record says ready only for a running VM.
 */
module ProvisioningProperties {
  import opened Common
  import opened Disks
  import opened Machine
  import opened Remote
  import opened Attempts
  import opened Provisioning

  /** The lookup by name answered with a VM that does not exist (an empty name). */
  predicate DiscoveredAbsent(ctx: Ctx, st: St)
  {
    Next(ctx, st).Document? && Next(ctx, st).vm.name == ""
  }

  /** The lookup by name was made and found `vm`. */
  predicate FoundVM(ctx: Ctx, st: St, vm: VMResult)
  {
    ctx.opens && st.rec.spec.vmName != "" && Next(ctx, st).Document? && Next(ctx, st).vm == vm && vm.name != ""
  }

  /** The k-th answer after `st` is a document without an error. */
  predicate Succeeds(ctx: Ctx, st: St, k: nat)
  {
    ReplyAt(ctx.script, |st.trace| + k).Document? && ReplyAt(ctx.script, |st.trace| + k).vm.error == ""
  }

  /** An attempt whose lookup found no VM goes on to the create path. */
  lemma NormalCreates(ctx: Ctx, inp: NormalInputs, st: St)
    requires ctx.opens && st.rec.spec.vmName != "" && DiscoveredAbsent(ctx, st)
    ensures Normal(ctx, inp, st) == Create(ctx, Sent(st, GetVM(st.rec.spec.vmName)))
  {
  }

  /** An attempt whose lookup found `vm` goes on to act on it. */
  lemma NormalFinds(ctx: Ctx, inp: NormalInputs, st: St, vm: VMResult)
    requires FoundVM(ctx, st, vm)
    ensures Normal(ctx, inp, st) == Found(ctx, inp, Sent(st, GetVM(st.rec.spec.vmName)), vm)
  {
  }

  /** The name the create path creates the VM under: the spec's own, or the generated one. */
  function ChosenName(ctx: Ctx, st: St): string
  {
    if st.rec.spec.vmName != "" then st.rec.spec.vmName
    else if Next(ctx, st).Document? then Next(ctx, st).echo.vmName
    else ""
  }

  /** The state of the create path just before CreateVM: after the name generation and the directory entry, if any. */
  function BeforeCreate(ctx: Ctx, st: St): St
  {
    var s0 := if st.rec.spec.vmName == "" then Sent(st, GenerateVMName(st.rec.spec)) else st;
    match st.rec.spec.activeDirectory
    case None => s0
    case Some(ad) => Sent(s0, CreateADComputer(ChosenName(ctx, st), ad.ouPath, ad.domainController, ad.description, ad.memberOf))
  }

  /** CreateVM was sent, and it answered with a document without an error. */
  predicate CreateVMAnswered(ctx: Ctx, st: St, a: Attempt)
  {
    Sends(st, a, KCreateVM) && |a.st.trace| > 0
    && ReplyAt(ctx.script, |a.st.trace| - 1).Document? && ReplyAt(ctx.script, |a.st.trace| - 1).vm.error == ""
  }

  /**
   * The attempt ended with CreateVM under a non-empty name (the spec's own
   * name when it had one); the spec now names that VM and the provider id
   * follows the VM id, nothing else in the spec changed, the machine is not
   * ready, VmCreated says VmCreating, and the attempt comes back in 10 seconds.
   */
  predicate CreatedAsAsked(ctx: Ctx, st: St, a: Attempt)
  {
    |a.st.trace| > 0 && a.st.trace[|a.st.trace| - 1].CreateVM? && ReplyAt(ctx.script, |a.st.trace| - 1).Document? &&
    var c := a.st.trace[|a.st.trace| - 1];
    var vm := ReplyAt(ctx.script, |a.st.trace| - 1).vm;
    && c.vmName != ""
    && (st.rec.spec.vmName != "" ==> c.vmName == st.rec.spec.vmName)
    && a.st.rec.spec == st.rec.spec.(vmName := c.vmName, providerID := ProviderIDFor(vm.vmId, st.rec.spec.providerID))
    && !a.st.rec.status.ready && a.st.rec.status.vmStatus == vm.status
    && VmCreated in a.st.rec.conditions && a.st.rec.conditions[VmCreated] == Condition(false, VmCreating, SeverityInfo, "")
    && a.outcome == Requeue(10)
  }

  /** A successful CreateVM call, made for the record of `orig` under a name that respects its spec. */
  lemma CreateMachineSuccess(ctx: Ctx, st: St, name: string, orig: St)
    requires name != "" && Next(ctx, st).Document? && Next(ctx, st).vm.error == ""
    requires st.rec == orig.rec && (orig.rec.spec.vmName != "" ==> name == orig.rec.spec.vmName)
    ensures CreatedAsAsked(ctx, orig, CreateMachine(ctx, st, name))
  {
  }

  /** The create path reaches CreateVM only through a non-empty name, with the record as it was. */
  lemma CreateReachesMachine(ctx: Ctx, st: St)
    requires Sends(st, Create(ctx, st), KCreateVM)
    ensures Create(ctx, st) == CreateMachine(ctx, BeforeCreate(ctx, st), ChosenName(ctx, st))
    ensures BeforeCreate(ctx, st).rec == st.rec && ChosenName(ctx, st) != ""
  {
    var name := ChosenName(ctx, st);
    var a := Create(ctx, st);
    var s0 := if st.rec.spec.vmName == "" then Sent(st, GenerateVMName(st.rec.spec)) else st;
    if st.rec.spec.vmName == "" {
      SentThen(st, GenerateVMName(st.rec.spec), a, {KCreateADComputer, KCreateVM});
    }
    assert a == CreateNamed(ctx, s0, name);
    match st.rec.spec.activeDirectory
    case None =>
    case Some(ad) =>
      SentThen(s0, CreateADComputer(name, ad.ouPath, ad.domainController, ad.description, ad.memberOf), a, {KCreateVM});
  }

  /** A successful CreateVM ends the create path as asked. */
  lemma CreateSuccess(ctx: Ctx, st: St)
    requires CreateVMAnswered(ctx, st, Create(ctx, st))
    ensures CreatedAsAsked(ctx, st, Create(ctx, st))
  {
    var b, name := BeforeCreate(ctx, st), ChosenName(ctx, st);
    CreateReachesMachine(ctx, st);
    assert |Create(ctx, st).st.trace| - 1 == |b.trace|;
    CreateMachineSuccess(ctx, b, name, st);
  }

  /**
   * A successful CreateVM in reconcileNormal: the spec names the chosen VM
   * (the spec's own name when it had one), the provider id follows the VM id,
   * the machine is not ready, VmCreated says VmCreating, and the attempt comes
   * back in 10 seconds.
   */
  lemma CreateVMSuccess(ctx: Ctx, inp: NormalInputs, st: St)
    requires CreateVMAnswered(ctx, st, Normal(ctx, inp, st))
    ensures CreatedAsAsked(ctx, st, Normal(ctx, inp, st))
  {
    var a := Normal(ctx, inp, st);
    if st.rec.spec.vmName != "" {
      var c := GetVM(st.rec.spec.vmName);
      var st1 := Sent(st, c);
      NormalCreates(ctx, inp, st);
      SentThen(st, c, a, {KGenerateVMName, KCreateADComputer, KCreateVM});
      CreateSuccess(ctx, st1);
    } else {
      CreateSuccess(ctx, st);
    }
  }

  /** The disks the powered-off branch compares: the found VM's spec merged with the AddVMSpec echo. */
  function MergedDisks(ctx: Ctx, st: St, vm: VMResult): seq<Disk>
    requires ReplyAt(ctx.script, |st.trace| + 1).Document?
  {
    CopyNonZeroTo(ReplyAt(ctx.script, |st.trace| + 1).echo, Observed(st.rec, vm).spec).spec.disks
  }

  /**
   * ExpandVMDisks is sent exactly when every sized disk has a reported
   * counterpart and one of them is short; then nothing is attached or
   * started; a sized disk without a counterpart panics.
   */
  predicate ExpandDecided(st: St, a: Attempt, disks: seq<Disk>, vds: seq<VirtualDisk>)
  {
    && (Sends(st, a, KExpandVMDisks) <==> IndexedSafely(disks, vds) && AnyExpandNeeded(disks, vds))
    && (Sends(st, a, KExpandVMDisks) ==> !Sends(st, a, KAddIsoToVM) && !Sends(st, a, KStartVM))
    && (!IndexedSafely(disks, vds) ==> a.outcome == Panic)
  }

  /** A successful expand: not ready, VmCreated says VmUpdating, back in 10 seconds. */
  predicate ExpandedAsAsked(a: Attempt)
  {
    && a.outcome == Requeue(10) && !a.st.rec.status.ready
    && VmCreated in a.st.rec.conditions && a.st.rec.conditions[VmCreated] == Condition(false, VmUpdating, SeverityInfo, "")
  }

  /** The state of the powered-off branch after the echoed spec is merged (and written, when it changed). */
  function BeforeResize(ctx: Ctx, st: St): St
    requires Next(ctx, st).Document?
  {
    var st1 := Sent(st, AddVMSpec(st.rec.spec));
    var merged := CopyNonZeroTo(Next(ctx, st).echo, st.rec.spec);
    var st2 := st1.(rec := st1.rec.(spec := merged.spec));
    if merged.changed then Patched(ctx, st2) else st2
  }

  /**
   * With the AddVMSpec answered, and the merge either unchanged (no write)
   * or written, the powered-off branch goes on to the resize.
   */
  lemma PoweredOffReachesResize(ctx: Ctx, inp: NormalInputs, st: St, vm: VMResult)
    requires Succeeds(ctx, st, 0) && (ctx.patchOk || !CopyNonZeroTo(Next(ctx, st).echo, st.rec.spec).changed)
    ensures PoweredOff(ctx, inp, st, vm) == Resize(ctx, inp, BeforeResize(ctx, st), vm)
    ensures BeforeResize(ctx, st).trace == st.trace + [AddVMSpec(st.rec.spec)]
    ensures BeforeResize(ctx, st).rec.spec.disks == CopyNonZeroTo(Next(ctx, st).echo, st.rec.spec).spec.disks
  {
  }

  /** A successful ExpandVMDisks. */
  lemma ExpandSuccess(ctx: Ctx, st: St)
    requires Succeeds(ctx, st, 0)
    ensures ExpandedAsAsked(Expand(ctx, st))
  {
  }

  /**
   * The resize grows the disks exactly when every sized disk has a reported
   * counterpart and one of them is short, and then starts nothing.
   */
  lemma ResizeDecided(ctx: Ctx, inp: NormalInputs, st: St, vm: VMResult)
    ensures ExpandDecided(st, Resize(ctx, inp, st, vm), st.rec.spec.disks, vm.virtualDisks)
    ensures Sends(st, Resize(ctx, inp, st, vm), KExpandVMDisks) ==> Resize(ctx, inp, st, vm) == Expand(ctx, st)
  {
    var disks := st.rec.spec.disks;
    var a := Resize(ctx, inp, st, vm);
    if !IndexedSafely(disks, vm.virtualDisks) {
    } else if AnyExpandNeeded(disks, vm.virtualDisks) {
      SentThen(st, ExpandVMDisks(st.rec.spec.vmName, DiskElems(disks)), a, {});
    } else {
      NotSent(st, a, {KAddIsoToVM, KStartVM}, KExpandVMDisks);
    }
  }

  /** The powered-off branch on its own, once AddVMSpec answered and the merge needed no write or was written. */
  lemma PoweredOffDecided(ctx: Ctx, inp: NormalInputs, st: St, vm: VMResult)
    requires Succeeds(ctx, st, 0) && (ctx.patchOk || !CopyNonZeroTo(Next(ctx, st).echo, st.rec.spec).changed)
    ensures ExpandDecided(st, PoweredOff(ctx, inp, st, vm), CopyNonZeroTo(Next(ctx, st).echo, st.rec.spec).spec.disks, vm.virtualDisks)
  {
    var a := PoweredOff(ctx, inp, st, vm);
    PoweredOffReachesResize(ctx, inp, st, vm);
    var st3 := BeforeResize(ctx, st);
    SentThen(st, AddVMSpec(st.rec.spec), a, {KExpandVMDisks, KAddIsoToVM, KStartVM});
    assert Sends(st, a, KExpandVMDisks) == Sends(st3, a, KExpandVMDisks);
    ResizeDecided(ctx, inp, st3, vm);
  }

  /** In the powered-off branch, an expand that succeeds comes back in 10 seconds with VmUpdating. */
  lemma PoweredOffExpands(ctx: Ctx, inp: NormalInputs, st: St, vm: VMResult)
    requires Succeeds(ctx, st, 0) && Succeeds(ctx, st, 1) && (ctx.patchOk || !CopyNonZeroTo(Next(ctx, st).echo, st.rec.spec).changed)
    requires Sends(st, PoweredOff(ctx, inp, st, vm), KExpandVMDisks)
    ensures ExpandedAsAsked(PoweredOff(ctx, inp, st, vm))
  {
    var a := PoweredOff(ctx, inp, st, vm);
    PoweredOffReachesResize(ctx, inp, st, vm);
    var st3 := BeforeResize(ctx, st);
    SentThen(st, AddVMSpec(st.rec.spec), a, {KExpandVMDisks, KAddIsoToVM, KStartVM});
    assert Sends(st3, a, KExpandVMDisks);
    ResizeDecided(ctx, inp, st3, vm);
    ExpandSuccess(ctx, st3);
  }

  /** A first command of another kind does not change how the expand is decided. */
  lemma DecidedThen(st: St, s1: St, c: Command, a: Attempt, disks: seq<Disk>, vds: seq<VirtualDisk>, kinds: set<Kind>)
    requires s1.trace == st.trace + [c] && KindOf(c) !in {KExpandVMDisks, KAddIsoToVM, KStartVM}
    requires SendsOnly(s1, a, kinds) && ExpandDecided(s1, a, disks, vds)
    ensures ExpandDecided(st, a, disks, vds)
    ensures Sends(st, a, KExpandVMDisks) == Sends(s1, a, KExpandVMDisks)
  {
    SentThen(st, c, a, kinds);
    forall k ensures Sends(s1, a, k) == Sends(Sent(st, c), a, k) {
    }
  }

  /** The attempt that finds a powered-off VM goes on to the powered-off branch. */
  lemma NormalFindsPoweredOff(ctx: Ctx, inp: NormalInputs, st: St, vm: VMResult)
    requires FoundVM(ctx, st, vm) && vm.status == "PowerOff"
    ensures Normal(ctx, inp, st) == PoweredOff(ctx, inp, Sent(st, GetVM(st.rec.spec.vmName)).(rec := Observed(st.rec, vm)), vm)
  {
    NormalFinds(ctx, inp, st, vm);
  }

  /** The expand decision of the powered-off branch, seen from the whole attempt. */
  lemma PowerOffExpandDecided(ctx: Ctx, inp: NormalInputs, st: St, vm: VMResult)
    requires FoundVM(ctx, st, vm) && vm.status == "PowerOff"
    requires Succeeds(ctx, st, 1) && (ctx.patchOk || !CopyNonZeroTo(ReplyAt(ctx.script, |st.trace| + 1).echo, Observed(st.rec, vm).spec).changed)
    ensures ExpandDecided(st, Normal(ctx, inp, st), MergedDisks(ctx, st, vm), vm.virtualDisks)
  {
    var c := GetVM(st.rec.spec.vmName);
    var obs := Sent(st, c).(rec := Observed(st.rec, vm));
    NormalFindsPoweredOff(ctx, inp, st, vm);
    assert Next(ctx, obs) == ReplyAt(ctx.script, |st.trace| + 1);
    PoweredOffDecided(ctx, inp, obs, vm);
    DecidedThen(st, obs, c, Normal(ctx, inp, st), MergedDisks(ctx, st, vm), vm.virtualDisks,
                {KAddVMSpec, KExpandVMDisks, KAddIsoToVM, KStartVM});
  }

  /** A successful expand in the powered-off branch, seen from the whole attempt. */
  lemma PowerOffExpandSucceeds(ctx: Ctx, inp: NormalInputs, st: St, vm: VMResult)
    requires FoundVM(ctx, st, vm) && vm.status == "PowerOff"
    requires Succeeds(ctx, st, 1) && Succeeds(ctx, st, 2) && (ctx.patchOk || !CopyNonZeroTo(ReplyAt(ctx.script, |st.trace| + 1).echo, Observed(st.rec, vm).spec).changed)
    requires Sends(st, Normal(ctx, inp, st), KExpandVMDisks)
    ensures ExpandedAsAsked(Normal(ctx, inp, st))
  {
    var a := Normal(ctx, inp, st);
    var c := GetVM(st.rec.spec.vmName);
    var obs := Sent(st, c).(rec := Observed(st.rec, vm));
    NormalFindsPoweredOff(ctx, inp, st, vm);
    assert Next(ctx, obs) == ReplyAt(ctx.script, |st.trace| + 1);
    SentThen(st, c, a, {KAddVMSpec, KExpandVMDisks, KAddIsoToVM, KStartVM});
    assert Sends(obs, a, KExpandVMDisks);
    PoweredOffExpands(ctx, inp, obs, vm);
  }

  /**
   * The powered-off branch, once AddVMSpec has answered and the merge
   * needed no write or the store accepted it: ExpandVMDisks is decided by the merged disks against the
   * reported ones, and a successful expand comes back in 10 seconds with
   * VmUpdating.
   */
  lemma PowerOffExpand(ctx: Ctx, inp: NormalInputs, st: St, vm: VMResult)
    requires FoundVM(ctx, st, vm) && vm.status == "PowerOff"
    requires Succeeds(ctx, st, 1) && (ctx.patchOk || !CopyNonZeroTo(ReplyAt(ctx.script, |st.trace| + 1).echo, Observed(st.rec, vm).spec).changed)
    ensures ExpandDecided(st, Normal(ctx, inp, st), MergedDisks(ctx, st, vm), vm.virtualDisks)
    ensures Sends(st, Normal(ctx, inp, st), KExpandVMDisks) && Succeeds(ctx, st, 2) ==> ExpandedAsAsked(Normal(ctx, inp, st))
  {
    PowerOffExpandDecided(ctx, inp, st, vm);
    if Sends(st, Normal(ctx, inp, st), KExpandVMDisks) && Succeeds(ctx, st, 2) {
      PowerOffExpandSucceeds(ctx, inp, st, vm);
    }
  }

  /**
   * A VM that is neither powered off nor running: only the lookup is sent,
   * VmRunning says VmStarting, the machine is not ready, and the attempt
   * comes back in 30 seconds.
   */
  lemma NotRunningWaits(ctx: Ctx, inp: NormalInputs, st: St, vm: VMResult)
    requires FoundVM(ctx, st, vm) && vm.status != "PowerOff" && vm.status != "Running"
    ensures var a := Normal(ctx, inp, st);
      && a.st.trace == st.trace + [GetVM(st.rec.spec.vmName)]
      && a.outcome == Requeue(30) && !a.st.rec.status.ready && a.st.rec.status.vmStatus == vm.status
      && VmRunning in a.st.rec.conditions && a.st.rec.conditions[VmRunning] == Condition(false, VmStarting, SeverityInfo, "")
      && VmCreated in a.st.rec.conditions && a.st.rec.conditions[VmCreated] == TrueCondition
  {
    NormalFinds(ctx, inp, st, vm);
  }

  /**
   * A running VM: the machine is ready, has one internal address per reported
   * IPv4 address in order and the reported host name, VmRunning is true. A
   * refused write fails the attempt before anything else is sent; otherwise
   * the VM is read again (and the attempt comes back in 60 seconds) exactly
   * when the addresses or the host name are missing, else the attempt is done.
   */
  lemma RunningRecordsAddresses(ctx: Ctx, inp: NormalInputs, st: St, vm: VMResult)
    requires FoundVM(ctx, st, vm) && vm.status == "Running"
    ensures var a := Normal(ctx, inp, st);
      && a.st.rec.status.ready
      && (vm.ipv4Addresses.Some? ==> a.st.rec.status.addresses == AddressesOf(vm.ipv4Addresses.value))
      && (vm.ipv4Addresses.None? ==> a.st.rec.status.addresses == st.rec.status.addresses)
      && (vm.hostname != "" ==> a.st.rec.status.hostname == vm.hostname)
      && VmRunning in a.st.rec.conditions && a.st.rec.conditions[VmRunning] == TrueCondition
      && (Sends(st, a, KReadVM) <==> ctx.patchOk && (vm.ipv4Addresses.None? || vm.hostname == ""))
      && SendsOnly(st, a, {KGetVM, KReadVM})
      && a.outcome == (if !ctx.patchOk then Failure
                       else if vm.ipv4Addresses.Some? && vm.hostname != "" then Done
                       else if ReplyAt(ctx.script, |st.trace| + 1).Document? then Requeue(60) else Failure)
  {
    var a := Normal(ctx, inp, st);
    var c := GetVM(st.rec.spec.vmName);
    var st1 := Sent(st, c);
    var st2 := st1.(rec := Observed(st1.rec, vm));
    NormalFinds(ctx, inp, st, vm);
    assert a == Running(ctx, st2, vm);
    RunningUpdates(ctx, st2, vm);
    SentThen(st, c, a, {KReadVM});
  }

  /** The running branch on its own: what it records, whether it reads the VM again, and how it ends. */
  lemma RunningUpdates(ctx: Ctx, st: St, vm: VMResult)
    ensures var a := Running(ctx, st, vm);
      && a.st.rec.status.ready
      && (vm.ipv4Addresses.Some? ==> a.st.rec.status.addresses == AddressesOf(vm.ipv4Addresses.value))
      && (vm.ipv4Addresses.None? ==> a.st.rec.status.addresses == st.rec.status.addresses)
      && (vm.hostname != "" ==> a.st.rec.status.hostname == vm.hostname)
      && VmRunning in a.st.rec.conditions && a.st.rec.conditions[VmRunning] == TrueCondition
      && (Sends(st, a, KReadVM) <==> ctx.patchOk && (vm.ipv4Addresses.None? || vm.hostname == ""))
      && a.outcome == (if !ctx.patchOk then Failure
                       else if vm.ipv4Addresses.Some? && vm.hostname != "" then Done
                       else if Next(ctx, st).Document? then Requeue(60) else Failure)
  {
    if ctx.patchOk && (vm.ipv4Addresses.None? || vm.hostname == "") {
      assert Running(ctx, st, vm).st.trace[|st.trace|] == ReadVM(st.rec.spec.vmName);
    }
  }

  /**
   * The machine ends an attempt ready only when the attempt left the record
   * as it was or found the VM running.
   */
  lemma ReadyOnlyWhenRunning(ctx: Ctx, inp: NormalInputs, st: St)
    ensures var a := Normal(ctx, inp, st);
      a.st.rec.status.ready ==> a.st.rec == st.rec || (FoundVM(ctx, st, Next(ctx, st).vm) && Next(ctx, st).vm.status == "Running")
  {
    if ctx.opens && st.rec.spec.vmName != "" {
      if DiscoveredAbsent(ctx, st) {
        NormalCreates(ctx, inp, st);
      } else if Next(ctx, st).Document? {
        NormalFinds(ctx, inp, st, Next(ctx, st).vm);
      }
    }
  }

  /** A disk declared at 20 GiB that the hypervisor reports at 10 GiB is grown, to 20480 MiB. */
  lemma GrowTenToTwentyGiB()
    ensures var disks := [Disk(Some(20 * 1024 * MiB), "", true)];
      var vds := [VirtualDisk(10 * 1024 * MiB, 10 * 1024 * MiB)];
      IndexedSafely(disks, vds) && AnyExpandNeeded(disks, vds) && DiskElems(disks) == [DiskElem(20480, "", true)]
  {
    var disks := [Disk(Some(20 * 1024 * MiB), "", true)];
    assert ExpandNeeded(disks[0], VirtualDisk(10 * 1024 * MiB, 10 * 1024 * MiB));
    assert ToMiB(20 * 1024 * MiB) == 20480;
  }
}
