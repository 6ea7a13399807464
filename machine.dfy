/**
 * The ScvmmMachine record: its desired spec, its observed status, its two
 * conditions and the summary condition derived from them, and the finalizer
 * that keeps the object alive until the VM is gone. Also the spec merge the
 * remote side uses to fill in fields it computed, and the patch helper that
 * writes the record back to the store.
 */
module Machine {
  import opened Common
  import opened Disks

  /** Directory (AD) entry to create for the VM. */
  datatype ADSpec = ADSpec(ouPath: string, domainController: string, description: string, memberOf: seq<string>)

  /** Stand-alone provisioning: cloud-init payload and the provider to use. */
  datatype CloudInit = CloudInit(userData: string, metaData: string, networkConfig: string, providerRef: Option<ObjectRef>)

  /** The desired state of one machine; `memory` is a byte count. */
  datatype MachineSpec = MachineSpec(
    vmName: string,
    providerID: string,
    cloud: string,
    hostGroup: string,
    vmTemplate: string,
    memory: int,
    cpuCount: int,
    vmNetwork: string,
    hardwareProfile: string,
    description: string,
    startAction: string,
    stopAction: string,
    disks: seq<Disk>,
    activeDirectory: Option<ADSpec>,
    cloudInit: Option<CloudInit>)

  /** A timestamp reported by the remote side; only copied, never compared. */
  datatype Time = Time(stamp: int)

  datatype Address = Address(addrType: string, address: string)

  const InternalIP := "InternalIP"

  datatype MachineStatus = MachineStatus(
    ready: bool,
    vmStatus: string,
    biosGuid: string,
    creationTime: Time,
    modifiedTime: Time,
    addresses: seq<Address>,
    hostname: string)

  /** The two conditions this controller owns. */
  datatype CondType = VmCreated | VmRunning

  /** Condition severities, least to most severe. */
  datatype Severity = NoSeverity | SeverityInfo | SeverityWarning | SeverityError

  datatype Condition = Condition(status: bool, reason: string, severity: Severity, message: string)

  /** A condition marked true carries no reason, severity or message. */
  const TrueCondition := Condition(true, "", NoSeverity, "")

  // Condition reasons.
  const WaitingForClusterInfrastructure := "WaitingForClusterInfrastructure"
  const WaitingForControlplaneAvailable := "WaitingForControlplaneAvailable"
  const WaitingForBootstrapData := "WaitingForBootstrapData"
  const WaitingForOwner := "WaitingForOwner"
  const ClusterNotAvailable := "ClusterNotAvailable"
  const MissingCluster := "MissingCluster"
  const VmCreating := "VmCreating"
  const VmUpdating := "VmUpdating"
  const VmStarting := "VmStarting"
  const VmDeleting := "VmDeleting"
  const VmFailed := "VmFailed"

  /** The whole record as the store holds it. */
  datatype Record = Record(
    spec: MachineSpec,
    status: MachineStatus,
    conditions: map<CondType, Condition>,
    summary: Option<Condition>,
    hasFinalizer: bool,
    deleting: bool)

  /** Rank of a false condition: the most severe one decides the summary. */
  function Rank(s: Severity): nat
  {
    match s
    case NoSeverity => 0
    case SeverityInfo => 1
    case SeverityWarning => 2
    case SeverityError => 3
  }

  /** Condition `t` is set and true. */
  predicate IsTrue(conds: map<CondType, Condition>, t: CondType)
  {
    t in conds && conds[t].status
  }

  /** How many of the two owned conditions are true (the completed steps). */
  function CountTrue(conds: map<CondType, Condition>): (n: nat)
    ensures n <= 2
    ensures n == 0 <==> !IsTrue(conds, VmCreated) && !IsTrue(conds, VmRunning)
    ensures n == 2 <==> IsTrue(conds, VmCreated) && IsTrue(conds, VmRunning)
  {
    (if VmCreated in conds && conds[VmCreated].status then 1 else 0)
    + (if VmRunning in conds && conds[VmRunning].status then 1 else 0)
  }

  /** Condition `t` is set and false. */
  predicate IsFalse(conds: map<CondType, Condition>, t: CondType)
  {
    t in conds && !conds[t].status
  }

  /** The step counter message, over the two owned conditions. */
  function StepMessage(n: nat): string
    requires n <= 2
  {
    if n == 0 then "0 of 2 completed" else if n == 1 then "1 of 2 completed" else "2 of 2 completed"
  }

  /**
   * The Ready summary over VmCreated and VmRunning: none when neither is
   * set, true when every one that is set is true, otherwise false with the
   * reason and severity of the most severe false condition (VmCreated first
   * on a tie) and, while provisioning, the step counter as its message.
   */
  function Summary(conds: map<CondType, Condition>, stepCounter: bool): (s: Option<Condition>)
    ensures s.None? <==> VmCreated !in conds && VmRunning !in conds
    ensures s.Some? ==> (s.value.status <==> !IsFalse(conds, VmCreated) && !IsFalse(conds, VmRunning))
    ensures s.Some? && !s.value.status ==>
      exists t :: IsFalse(conds, t) && s.value.reason == conds[t].reason && s.value.severity == conds[t].severity
    ensures s.Some? && !s.value.status ==>
      && (IsFalse(conds, VmCreated) ==> Rank(conds[VmCreated].severity) <= Rank(s.value.severity))
      && (IsFalse(conds, VmRunning) ==> Rank(conds[VmRunning].severity) <= Rank(s.value.severity))
    ensures s.Some? && !s.value.status && stepCounter ==> s.value.message == StepMessage(CountTrue(conds))
  {
    if VmCreated !in conds && VmRunning !in conds then None
    else if !IsFalse(conds, VmCreated) && !IsFalse(conds, VmRunning) then Some(TrueCondition)
    else
      var t := if !IsFalse(conds, VmRunning)
                  || (IsFalse(conds, VmCreated) && Rank(conds[VmCreated].severity) >= Rank(conds[VmRunning].severity))
               then VmCreated else VmRunning;
      var top := conds[t];
      assert IsFalse(conds, t);
      Some(Condition(false, top.reason, top.severity, if stepCounter then StepMessage(CountTrue(conds)) else top.message))
  }

  /**
   * The record with its summary recomputed (the step counter shows while not
   * deleting). With neither owned condition set there is no summary to set,
   * and the previous one stays.
   */
  function Summarized(r: Record): (s: Record)
    ensures VmCreated in r.conditions || VmRunning in r.conditions ==> s.summary == Summary(r.conditions, !r.deleting)
    ensures VmCreated !in r.conditions && VmRunning !in r.conditions ==> s.summary == r.summary
    ensures s.(summary := r.summary) == r
  {
    var summary := Summary(r.conditions, !r.deleting);
    if summary.Some? then r.(summary := summary) else r
  }

  /** The result of merging an echoed spec into the record's spec. */
  datatype Merge = Merge(changed: bool, spec: MachineSpec)

  /** One field of the merge: the echoed value when it is not the zero value. */
  function Pick<T(==)>(echoed: T, target: T, zero: T): (v: T)
    ensures v == echoed || v == target
    ensures echoed == zero ==> v == target
  {
    if echoed != zero then echoed else target
  }

  function PickOption<T(==)>(echoed: Option<T>, target: Option<T>): (v: Option<T>)
    ensures echoed.None? ==> v == target
    ensures echoed.Some? ==> v == echoed
  {
    if echoed.Some? then echoed else target
  }

  /**
   * CopyNonZeroTo: every field of the echoed spec that is set (a non-empty
   * string or list, a non-zero number, a present section) overwrites the
   * same field of the target; `changed` tells whether the target changed.
   */
  function CopyNonZeroTo(echoed: MachineSpec, target: MachineSpec): (m: Merge)
    ensures m.changed <==> m.spec != target
  {
    var spec := MachineSpec(
      Pick(echoed.vmName, target.vmName, ""),
      Pick(echoed.providerID, target.providerID, ""),
      Pick(echoed.cloud, target.cloud, ""),
      Pick(echoed.hostGroup, target.hostGroup, ""),
      Pick(echoed.vmTemplate, target.vmTemplate, ""),
      Pick(echoed.memory, target.memory, 0),
      Pick(echoed.cpuCount, target.cpuCount, 0),
      Pick(echoed.vmNetwork, target.vmNetwork, ""),
      Pick(echoed.hardwareProfile, target.hardwareProfile, ""),
      Pick(echoed.description, target.description, ""),
      Pick(echoed.startAction, target.startAction, ""),
      Pick(echoed.stopAction, target.stopAction, ""),
      Pick(echoed.disks, target.disks, []),
      PickOption(echoed.activeDirectory, target.activeDirectory),
      PickOption(echoed.cloudInit, target.cloudInit));
    Merge(spec != target, spec)
  }

  /** The spec with every field at its zero value. */
  const ZeroSpec := MachineSpec("", "", "", "", "", 0, 0, "", "", "", "", "", [], None, None)

  /** An echo that sets nothing leaves the target as it was. */
  lemma ZeroEchoKeepsTarget(target: MachineSpec)
    ensures CopyNonZeroTo(ZeroSpec, target) == Merge(false, target)
  {
  }

  /** Merging the same echo twice changes nothing the second time. */
  lemma MergeIdempotent(echoed: MachineSpec, target: MachineSpec)
    ensures var once := CopyNonZeroTo(echoed, target).spec;
      CopyNonZeroTo(echoed, once) == Merge(false, once)
  {
  }

  /**
   * An echo whose only set field is the VM name overwrites only the VM name:
   * every other field keeps the value the caller had set.
   */
  lemma MergeOnlyName(name: string, target: MachineSpec)
    requires name != ""
    ensures CopyNonZeroTo(ZeroSpec.(vmName := name), target).spec == target.(vmName := name)
    ensures CopyNonZeroTo(ZeroSpec.(vmName := name), target).changed <==> target.vmName != name
  {
  }

  /** An echo whose only set section is the disk list replaces only the disks. */
  lemma MergeOnlyDisks(disks: seq<Disk>, target: MachineSpec)
    requires disks != []
    ensures CopyNonZeroTo(ZeroSpec.(disks := disks), target).spec == target.(disks := disks)
  {
  }

  /** The record object the controller edits in place during one attempt. */
  class ScvmmMachine {
    var spec: MachineSpec
    var status: MachineStatus
    var conditions: map<CondType, Condition>
    var summary: Option<Condition>
    var hasFinalizer: bool
    const deleting: bool

    function Value(): Record
      reads this
    {
      Record(spec, status, conditions, summary, hasFinalizer, deleting)
    }

    constructor (r: Record)
      ensures Value() == r
    {
      spec, status, conditions, summary := r.spec, r.status, r.conditions, r.summary;
      hasFinalizer, deleting := r.hasFinalizer, r.deleting;
    }

    /** conditions.MarkTrue. */
    method MarkTrue(t: CondType)
      modifies this
      ensures Value() == old(Value()).(conditions := old(conditions)[t := TrueCondition])
    {
      conditions := conditions[t := TrueCondition];
    }

    /** conditions.MarkFalse. */
    method MarkFalse(t: CondType, reason: string, severity: Severity, message: string)
      modifies this
      ensures Value() == old(Value()).(conditions := old(conditions)[t := Condition(false, reason, severity, message)])
    {
      conditions := conditions[t := Condition(false, reason, severity, message)];
    }

    /** conditions.SetSummary over the two owned conditions. */
    method SetSummary()
      modifies this
      ensures Value() == Summarized(old(Value()))
    {
      var recomputed := Summary(conditions, !deleting);
      if recomputed.Some? {
        summary := recomputed;
      }
    }
  }

  /**
   * The patch helper: a write of the whole record back to the store, which
   * the store may refuse (a conflict or an unreachable API server). The
   * writes that went through are recorded.
   */
  class PatchHelper {
    const rejects: bool
    ghost var writes: seq<Record>

    constructor (rejects: bool)
      ensures this.rejects == rejects && writes == []
    {
      this.rejects := rejects;
      writes := [];
    }

    method Patch(m: ScvmmMachine) returns (ok: bool)
      modifies this
      ensures ok == !rejects
      ensures writes == old(writes) + (if ok then [m.Value()] else [])
    {
      ok := !rejects;
      if ok {
        writes := writes + [m.Value()];
      }
    }
  }
}
