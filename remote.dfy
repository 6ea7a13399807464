/**
 * The remote management side as the controller sees it: named commands with
 * their arguments, and for each one either a transport failure or a decoded
 * result document. The session answers the k-th command of an attempt with
 * the k-th reply of a script, so every property of the controller holds for
 * whatever the remote side answers.
 */
module Remote {
  import opened Common
  import opened Disks
  import opened Machine

  /** The result document of a remote function (VMResult); a nil address list is None. */
  datatype VMResult = VMResult(
    cloud: string,
    name: string,
    hostname: string,
    status: string,
    memory: int,
    cpuCount: int,
    virtualNetwork: string,
    ipv4Addresses: Option<seq<string>>,
    virtualDisks: seq<VirtualDisk>,
    biosGuid: string,
    id: string,
    vmId: string,
    error: string,
    scriptErrors: string,
    message: string,
    creationTime: Time,
    modifiedTime: Time)

  /** The result of a spec call: the (possibly amended) spec echoed back, and the error fields. */
  datatype VMSpecResult = VMSpecResult(spec: MachineSpec, error: string, scriptErrors: string, message: string)

  /**
   * One answer of the remote side: the transport failed (connection, remote
   * exit status, undecodable output), or a document arrived. A spec call reads
   * the same document's spec fields; both views share Error, ScriptErrors and
   * Message.
   */
  datatype Reply = TransportError | Document(vm: VMResult, echo: MachineSpec)

  /** What a send returns: Go's `(value, err)` with a non-nil err as Failed. */
  datatype Response<T> = Failed | Decoded(value: T)

  /** A remote call, with its arguments before quoting. */
  datatype Command =
    | GetVM(vmName: string)
    | GenerateVMName(spec: MachineSpec)
    | CreateADComputer(name: string, ouPath: string, domainController: string, description: string, memberOf: seq<string>)
    | CreateVM(cloud: string, hostGroup: string, vmName: string, vmTemplate: string, memoryMB: int, cpuCount: int,
               disks: seq<DiskElem>, vmNetwork: string, hardwareProfile: string, description: string,
               startAction: string, stopAction: string)
    | AddVMSpec(spec: MachineSpec)
    | ExpandVMDisks(vmName: string, disks: seq<DiskElem>)
    | AddIsoToVM(vmName: string, isoPath: string)
    | StartVM(vmName: string)
    | ReadVM(vmName: string)
    | RemoveVM(vmName: string)
    | RemoveADComputer(name: string, ouPath: string, domainController: string)

  /** The answer to the k-th command; past the end of the script the transport fails. */
  function ReplyAt(script: seq<Reply>, k: nat): (r: Reply)
    ensures k >= |script| ==> r == TransportError
    ensures k < |script| ==> r == script[k]
  {
    if k < |script| then script[k] else TransportError
  }

  /** A reply read as a VMResult (sendWinrmCommand). */
  function VMView(r: Reply): (v: Response<VMResult>)
    ensures v.Failed? <==> r.TransportError?
    ensures v.Decoded? ==> v.value == r.vm
  {
    if r.TransportError? then Failed else Decoded(r.vm)
  }

  /** A reply read as a VMSpecResult (sendWinrmSpecCommand). */
  function SpecView(r: Reply): (v: Response<VMSpecResult>)
    ensures v.Failed? <==> r.TransportError?
    ensures v.Decoded? ==> v.value.spec == r.echo
    ensures v.Decoded? ==> v.value.error == r.vm.error && v.value.scriptErrors == r.vm.scriptErrors && v.value.message == r.vm.message
  {
    if r.TransportError? then Failed else Decoded(VMSpecResult(r.echo, r.vm.error, r.vm.scriptErrors, r.vm.message))
  }

  /**
   * One remote session (the WinRM command of an attempt): whether it could be
   * opened, the replies it will give, and the commands sent so far.
   */
  class Session {
    const opens: bool
    const script: seq<Reply>
    var next: nat
    ghost var trace: seq<Command>

    ghost predicate Valid()
      reads this
    {
      next == |trace|
    }

    constructor (opens: bool, script: seq<Reply>)
      ensures Valid() && trace == []
      ensures this.opens == opens && this.script == script
    {
      this.opens := opens;
      this.script := script;
      next := 0;
      trace := [];
    }

    /** sendWinrmCommand: run one command and decode its result. */
    method Send(c: Command) returns (r: Response<VMResult>)
      requires Valid()
      modifies this
      ensures Valid() && trace == old(trace) + [c]
      ensures r == VMView(ReplyAt(script, old(|trace|)))
    {
      r := VMView(ReplyAt(script, next));
      next := next + 1;
      trace := trace + [c];
    }

    /** sendWinrmSpecCommand: run a spec call and decode the echoed spec. */
    method SendSpec(c: Command) returns (r: Response<VMSpecResult>)
      requires Valid()
      modifies this
      ensures Valid() && trace == old(trace) + [c]
      ensures r == SpecView(ReplyAt(script, old(|trace|)))
    {
      r := SpecView(ReplyAt(script, next));
      next := next + 1;
      trace := trace + [c];
    }
  }
}
