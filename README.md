# ScvmmMachine reconciliation, modelled in Dafny

This project models the reconciler of the ScvmmMachine resource of the
cluster-api provider for System Center Virtual Machine Manager
(`controllers/scvmmmachine_controller.go`). One reconcile attempt reads
one ScvmmMachine record. It fills in absent disk sizes. For a machine
that belongs to a cluster, it gates on the owner Machine, the Cluster,
the ScvmmCluster and the cluster's infrastructure. It adds the finalizer
and stops. It resolves and defaults the ScvmmProvider. It then either
deletes or provisions the VM through a sequence of remote management
commands: GetVM, GenerateVMName, CreateADComputer, CreateVM, AddVMSpec,
ExpandVMDisks, AddIsoToVM, StartVM, ReadVM, RemoveVM and
RemoveADComputer. Most early exits go through patchReasonCondition,
which marks a condition false, writes the record back and chooses the
result (nothing, a requeue after some seconds, or an error). The others
return directly, with an error or with nothing, and leave the record as
it stands: a failed owner lookup, a write the store refuses, a provider
that cannot be resolved, a remote session that does not open, and a
transport error on GetVM, AddIsoToVM, StartVM or ReadVM.

The model has two layers:

- **Attempt model** (modules `Attempts`, `Provisioning`, `Deletion`,
  `Reconcile`). Each step is a function from what the attempt sees (`Ctx`:
  whether the remote session opens, the scripted replies of the remote
  side, whether the store accepts writes) and the state it threads (`St`:
  the record, the commands sent so far, the writes that reached the
  store). It returns the new state and the outcome (`Done`, `Requeue(s)`,
  `Failure`, or `Panic` for a Go run-time panic). The properties are
  proved about these functions, for every record and every sequence of
  remote answers.
- **Controller** (module `Controller`, with the classes
  `Machine.ScvmmMachine`, `Machine.PatchHelper`, `Remote.Session` and
  `Provider.ProviderSpec`). This layer does what the Go code does. It
  edits one record object in place, sends commands through one session
  that records them, and writes through one patch helper. Each method is
  proved to leave the object, the session and the store exactly as the
  matching attempt function says, so the properties carry over.

The pure helpers are modelled as well:

- quoting for the remote command line (`Escaping`);
- the disk element array and the expand threshold (`Disks`);
- the provider defaulting (`Provider`);
- the ready summary over the two owned conditions (`Machine`).

Where the code and its documented intent disagree, the model follows the
code, with two exceptions, both listed under Findings. As written, the
gate fetches the ScvmmCluster into a nil pointer. That fetch always
fails, so every owned machine stops with ClusterNotAvailable, and
`Reconcile.ReconcileAttempt` uses the corrected gate. The directory
group list that CreateADComputer receives is the corrected one, not the
shifted list the as-written quoting produces. The as-written forms are
kept beside the corrected ones.

## Model

| member | source | states |
|---|---|---|
| Common.GoDiv1024 | controllers/scvmmmachine_controller.go:775 | Go's integer `/ 1024` truncates toward zero: the quotient brackets the dividend from below for non-negative values and from above for negative ones |
| Common.ToMiB | controllers/scvmmmachine_controller.go:572 | `v / 1024 / 1024` gives the whole number of mebibytes in `v`, truncated toward zero (within one MiB of `v`, on `v`'s side of zero) |
| Escaping.EscapeSingleQuotes | controllers/scvmmmachine_controller.go:349-351 | the result is the input length plus one per quote, and holds exactly twice as many quotes |
| Escaping.QuotedRoundTrip | controllers/scvmmmachine_controller.go:349-351 | an escaped string followed by a closing quote reads back as exactly that string, and the reader stops at that quote whatever follows |
| Escaping.UnescapeRecovers | controllers/scvmmmachine_controller.go:349-351 | collapsing `''` back to `'` in an escaped string recovers the input |
| Escaping.QuotedList | controllers/scvmmmachine_controller.go:353-366 | the quoted list is empty exactly for the empty list; otherwise it starts and ends with a quote |
| Escaping.QuotedListRoundTrip | controllers/scvmmmachine_controller.go:353-366 | reading a quoted list back as `'a','b',…` gives back every element, in order |
| Escaping.EscapeSingleQuotesArray | controllers/scvmmmachine_controller.go:353-366 | the builder loop produces the quoted list of its input (the corrected indexing) |
| Escaping.Shifted | controllers/scvmmmachine_controller.go:360-362 | the element written at position k > 0 is the input's element k−1; the first one is the input's first |
| Escaping.EscapeSingleQuotesArrayAsWritten | controllers/scvmmmachine_controller.go:353-366 | the builder loop as written produces the quoted list of the shifted input |
| Escaping.AsWrittenRoundTrip | controllers/scvmmmachine_controller.go:360-362 | the as-written output reads back as the shifted list, which is the input exactly when all elements equal their predecessor |
| Escaping.AsWrittenLosesSecondGroup | controllers/scvmmmachine_controller.go:360-362 | for groups `admins`, `servers` the as-written output names `admins` twice and never `servers` |
| Disks.SizeMB | controllers/scvmmmachine_controller.go:772-776 | an absent size is 0 MiB; a present one is truncated to whole MiB |
| Disks.DiskElems | controllers/scvmmmachine_controller.go:769-781 | one element per disk, in order, each with the disk's MiB size, VHD name and dynamic flag |
| Disks.MakeDiskElems | controllers/scvmmmachine_controller.go:769-781 | the filling loop yields one element per disk, in order, with SizeMB, VHDisk and Dynamic as in the disk |
| Disks.NeedsExpand | controllers/scvmmmachine_controller.go:628-634 | the scan panics exactly when a sized disk has no reported counterpart; otherwise it asks for an expand exactly when some sized disk's reported maximum is below its size minus 1 MiB |
| Disks.WithSizes | controllers/scvmmmachine_controller.go:409-415 | every disk ends with a size; sized disks are unchanged and unsized ones get size 0 |
| Disks.FillDiskSizes | controllers/scvmmmachine_controller.go:409-415 | the loop over the disks gives every absent size the value 0 and changes nothing else |
| Disks.SizedDisksNeedCounterparts | controllers/scvmmmachine_controller.go:628-634 | once every disk has a size (as after the workaround), the scan is safe exactly when the VM reports at least as many disks |
| Provider.DefaultHosts | controllers/scvmmmachine_controller.go:175-186 | a missing management host in both the provider and the environment is an error; an empty execution host writes into the function map (a panic when the map is nil) and ends equal to the management host; nothing else changes |
| Provider.DefaultPaths | controllers/scvmmmachine_controller.go:187-195 | an empty library path takes the environment's, else `\\<host>\MSSCVMMLibrary\ISOs\clond-init`; an empty directory server takes the environment's; nothing else changes |
| Provider.DefaultCredentials | controllers/scvmmmachine_controller.go:196-214 | a missing secret is an error; a key the secret has overrides the provider's value; the environment fills only what is still empty |
| Provider.ApplyDefaults | controllers/scvmmmachine_controller.go:174-214 | the whole defaulting: when it fails (missing host, nil map, missing secret), and every field of a defaulted provider (a non-empty host, the execution host, library, directory server, credentials) |
| Provider.ProviderSpec.SetDefaults | controllers/scvmmmachine_controller.go:174-214 | overwriting the spec's fields in place ends in exactly the outcome and fields of the defaulting |
| Provider.ProviderSpec.SetHosts | controllers/scvmmmachine_controller.go:175-186 | the host stage in place, as the defaulting's host stage |
| Provider.ProviderSpec.SetPaths | controllers/scvmmmachine_controller.go:187-195 | the path stage in place, as the defaulting's path stage |
| Provider.ProviderSpec.SetCredentials | controllers/scvmmmachine_controller.go:196-214 | the credential stage in place, as the defaulting's credential stage |
| Provider.FromDefaults | controllers/scvmmmachine_controller.go:174-215 | a defaulted provider is returned, a missing host or secret is an error, a nil map write is a crash |
| Provider.Resolve | controllers/scvmmmachine_controller.go:153-216 | a resolved provider has a management host, an execution host and a library path; without a cluster, a reference with an empty namespace crashes, and no reference at all crashes unless the host is missing |
| Provider.ResolveWithoutReference | controllers/scvmmmachine_controller.go:154-172 | with no reference, the freshly allocated provider is defaulted with its secret in the empty namespace; this is an error when the environment has no host, and otherwise the nil function map is written to, which crashes |
| Provider.ResolveMachineReference | controllers/scvmmmachine_controller.go:154-172 | a stand-alone machine uses its own reference: an empty namespace crashes, an absent key is an error, and a stored provider resolves to its spec defaulted in its own namespace |
| Provider.ResolveClusterReference | controllers/scvmmmachine_controller.go:154-172 | with a cluster, the cluster's reference is used and the machine's is ignored; an empty namespace is filled from the cluster, an absent key is an error, and a stored provider resolves to its spec defaulted in its own namespace |
| Provider.GetProvider | controllers/scvmmmachine_controller.go:153-216 | the fetch-then-default procedure returns exactly the resolution |
| Remote.ReplyAt | controllers/scvmmmachine_controller.go:322-331 | the k-th command gets the k-th scripted reply; past the script the transport fails |
| Remote.VMView | controllers/scvmmmachine_controller.go:306-331 | a send fails exactly on a transport error, and otherwise returns the decoded VMResult |
| Remote.SpecView | controllers/scvmmmachine_controller.go:333-347 | a spec call fails exactly on a transport error; otherwise it returns the echoed spec and the Error, ScriptErrors and Message of the same document |
| Remote.Session.Send | controllers/scvmmmachine_controller.go:322-331 | one command is appended to the session's trace and answered with the next reply |
| Remote.Session.SendSpec | controllers/scvmmmachine_controller.go:368-390 | one spec command is appended to the trace and answered with the next reply read as a spec result |
| Machine.CountTrue | controllers/scvmmmachine_controller.go:884-890 | the step counter is 0 exactly when neither owned condition is true, 2 exactly when both are, and never more |
| Machine.Summary | controllers/scvmmmachine_controller.go:884-890 | the ready summary exists when an owned condition is set; it is true exactly when neither is false; otherwise it carries the reason and severity of a false condition of the highest severity, and the step counter while provisioning |
| Machine.Summarized | controllers/scvmmmachine_controller.go:884-890 | with an owned condition set, the summary is recomputed; with neither set, the previous summary stays; nothing else in the record changes |
| Machine.CopyNonZeroTo | controllers/scvmmmachine_controller.go:622 | the merge reports a change exactly when the merged spec differs from the target |
| Machine.ZeroEchoKeepsTarget | controllers/scvmmmachine_controller.go:622 | an echo with nothing set leaves the spec unchanged and reports no change |
| Machine.MergeIdempotent | controllers/scvmmmachine_controller.go:622 | merging the same echo a second time changes nothing |
| Machine.MergeOnlyName | controllers/scvmmmachine_controller.go:622 | an echo that sets only the VM name overwrites only the name, and reports a change exactly when the name differed |
| Machine.MergeOnlyDisks | controllers/scvmmmachine_controller.go:622 | an echo that sets only the disks replaces only the disks |
| Machine.ScvmmMachine.MarkTrue | controllers/scvmmmachine_controller.go:600 | the condition becomes true and nothing else in the record changes |
| Machine.ScvmmMachine.MarkFalse | controllers/scvmmmachine_controller.go:859-861 | the condition becomes false with the given reason, severity and message, and nothing else changes |
| Machine.ScvmmMachine.SetSummary | controllers/scvmmmachine_controller.go:884-890 | the object's summary is recomputed from its conditions, with the step counter unless it is being deleted |
| Machine.PatchHelper.Patch | controllers/scvmmmachine_controller.go:893-901 | the write succeeds exactly when the store accepts it, and only a successful write is recorded |
| Attempts.Patched | controllers/scvmmmachine_controller.go:881-902 | patchScvmmMachine recomputes the summary, sends nothing, and records the record as written exactly when the store accepts it |
| Attempts.ResultOf | controllers/scvmmmachine_controller.go:866-878 | an error is returned exactly when there is one; a requeue of the given seconds exactly when there is none and the requeue is non-zero; otherwise an empty result |
| Attempts.Reason | controllers/scvmmmachine_controller.go:856-879 | afterwards the machine is not ready; the condition is false with Error severity exactly when there is an error, else Info; the summary is false; spec, finalizer and other status fields are unchanged; nothing is sent; the outcome is ResultOf |
| Attempts.ReasonSendsNothing | controllers/scvmmmachine_controller.go:856-879 | patchReasonCondition sends no remote command |
| Provisioning.AddressesOf | controllers/scvmmmachine_controller.go:731-739 | one internal address per reported IPv4 address, in order |
| Provisioning.CreateMachine | controllers/scvmmmachine_controller.go:562-598 | exactly one command, CreateVM for the spec under the chosen name, is sent; it is the last one; the machine is not ready |
| Provisioning.AfterEntry | controllers/scvmmmachine_controller.go:554-561 | CreateVM follows only a directory entry created without error, and is then the last command |
| Provisioning.CreateNamed | controllers/scvmmmachine_controller.go:544-598 | only CreateADComputer and CreateVM can be sent, CreateVM last; the machine is not ready |
| Provisioning.AfterGenerate | controllers/scvmmmachine_controller.go:531-543 | CreateVM follows only a generated, non-empty name, under that name |
| Provisioning.Create | controllers/scvmmmachine_controller.go:527-598 | GenerateVMName is sent exactly when the spec names no VM; only creation commands are sent, CreateVM last; the machine is not ready |
| Provisioning.Expand | controllers/scvmmmachine_controller.go:635-657 | ExpandVMDisks with the spec's disk elements is the one command sent; the attempt fails, ends, or comes back in 10 seconds; not ready |
| Provisioning.Started | controllers/scvmmmachine_controller.go:715-721 | after AddIsoToVM or StartVM: nothing more is sent, a machine that was not ready stays so, and the attempt comes back in 10 seconds or fails with the patch |
| Provisioning.Attach | controllers/scvmmmachine_controller.go:686-705 | only AddIsoToVM can be sent; readiness is not gained |
| Provisioning.Start | controllers/scvmmmachine_controller.go:706-714 | StartVM for the VM's name is the one command sent; readiness is not gained |
| Provisioning.Boot | controllers/scvmmmachine_controller.go:659-714 | only AddIsoToVM or StartVM can be sent; readiness is not gained |
| Provisioning.Resize | controllers/scvmmmachine_controller.go:628-714 | only ExpandVMDisks, AddIsoToVM or StartVM can be sent; readiness is not gained |
| Provisioning.AfterAddSpec | controllers/scvmmmachine_controller.go:615-627 | after AddVMSpec's answer only ExpandVMDisks, AddIsoToVM or StartVM can be sent; readiness is not gained |
| Provisioning.PoweredOff | controllers/scvmmmachine_controller.go:612-722 | the powered-off branch sends only AddVMSpec, ExpandVMDisks, AddIsoToVM or StartVM; readiness is not gained |
| Provisioning.Running | controllers/scvmmmachine_controller.go:729-760 | the running branch sends at most ReadVM |
| Provisioning.Found | controllers/scvmmmachine_controller.go:600-760 | a found VM leads to no creation command, and the machine ends ready only when the VM is running |
| Provisioning.AfterLookup | controllers/scvmmmachine_controller.go:522-527 | no name is generated for a named spec; creation commands follow only a lookup that found no VM; CreateVM is the last command |
| Provisioning.CreateNamedVM | controllers/scvmmmachine_controller.go:527-598 | the create path for a named spec generates no name, and CreateVM is last |
| Provisioning.FoundNamedVM | controllers/scvmmmachine_controller.go:600-760 | the found-VM path sends no GenerateVMName, CreateADComputer or CreateVM |
| Provisioning.Normal | controllers/scvmmmachine_controller.go:509-761 | GetVM is sent exactly when the session opens and the spec names a VM, and then first; GenerateVMName only for a spec without a name; CreateADComputer and CreateVM only when the spec has no name or the lookup found none; CreateVM is the last command |
| ProvisioningProperties.NormalCreates | controllers/scvmmmachine_controller.go:519-527 | a lookup that finds no VM continues on the create path after GetVM |
| ProvisioningProperties.NormalFinds | controllers/scvmmmachine_controller.go:519-527 | a lookup that finds a VM continues on the found-VM path after GetVM |
| ProvisioningProperties.CreateMachineSuccess | controllers/scvmmmachine_controller.go:584-598 | a CreateVM answered without error leaves the spec naming the VM and the provider id following the VM id, not ready, VmCreating, requeue 10 |
| ProvisioningProperties.CreateReachesMachine | controllers/scvmmmachine_controller.go:527-567 | CreateVM is reached only under a non-empty chosen name, with the record unchanged until then |
| ProvisioningProperties.CreateSuccess | controllers/scvmmmachine_controller.go:527-598 | on the create path, a successful CreateVM ends the attempt as created: spec names the VM (the spec's own name if it had one), provider id, not ready, VmCreating, requeue 10 |
| ProvisioningProperties.CreateVMSuccess | controllers/scvmmmachine_controller.go:519-598 | the same for a whole reconcileNormal attempt, with or without the lookup first |
| ProvisioningProperties.PoweredOffReachesResize | controllers/scvmmmachine_controller.go:612-628 | after a successful AddVMSpec, once the merge either changed nothing (so no write is made) or was written, the branch continues with the merged spec, with AddVMSpec as the only command so far |
| ProvisioningProperties.ExpandSuccess | controllers/scvmmmachine_controller.go:641-656 | a successful ExpandVMDisks comes back in 10 seconds, not ready, with VmUpdating |
| ProvisioningProperties.ResizeDecided | controllers/scvmmmachine_controller.go:628-657 | ExpandVMDisks is sent exactly when every sized disk has a counterpart and one is short, then nothing is attached or started; a sized disk without a counterpart panics |
| ProvisioningProperties.PoweredOffDecided | controllers/scvmmmachine_controller.go:612-657 | the same decision for the powered-off branch, taken on the merged disks, after a successful AddVMSpec and once the merge either changed nothing (so no write is made) or was written |
| ProvisioningProperties.PoweredOffExpands | controllers/scvmmmachine_controller.go:635-656 | an expand sent in the powered-off branch that succeeds comes back in 10 seconds with VmUpdating, not ready, once the merge either changed nothing (so no write is made) or was written |
| ProvisioningProperties.NormalFindsPoweredOff | controllers/scvmmmachine_controller.go:600-612 | a found powered-off VM goes to the powered-off branch with the observed record |
| ProvisioningProperties.PowerOffExpandDecided | controllers/scvmmmachine_controller.go:612-657 | in a whole reconcileNormal attempt on a powered-off VM, once the merge either changed nothing (so no write is made) or was written, ExpandVMDisks is decided by the merged disks against the reported ones |
| ProvisioningProperties.PowerOffExpandSucceeds | controllers/scvmmmachine_controller.go:635-656 | in a whole attempt on a powered-off VM, once the merge either changed nothing (so no write is made) or was written, a successful expand comes back in 10 seconds with VmUpdating, not ready |
| ProvisioningProperties.PowerOffExpand | controllers/scvmmmachine_controller.go:612-657 | both of the above for a powered-off VM, once the merge either changed nothing (so no write is made) or was written: the expand decision, no attach or start after an expand, and the 10-second VmUpdating result |
| ProvisioningProperties.NotRunningWaits | controllers/scvmmmachine_controller.go:724-728 | a VM neither powered off nor running: only GetVM is sent, VmCreated true, VmRunning says VmStarting, not ready, requeue 30 |
| ProvisioningProperties.RunningRecordsAddresses | controllers/scvmmmachine_controller.go:729-760 | a running VM: ready, one internal address per IPv4 address in order, host name copied when set, VmRunning true; a refused write fails the attempt with no ReadVM; otherwise ReadVM (requeue 60) exactly when the addresses or host name are missing, else done |
| ProvisioningProperties.RunningUpdates | controllers/scvmmmachine_controller.go:729-760 | the same facts, including the refused-write failure, for the running branch taken on its own |
| ProvisioningProperties.ReadyOnlyWhenRunning | controllers/scvmmmachine_controller.go:606 | an attempt ends ready only if it changed nothing or found the VM running |
| ProvisioningProperties.GrowTenToTwentyGiB | controllers/scvmmmachine_controller.go:628-634 | a 20 GiB disk reported at 10 GiB is grown, and its element says 20480 MiB |
| Deletion.Unfinalize | controllers/scvmmmachine_controller.go:791-798 | the finalizer is removed, nothing is sent, and a rejected write is an error |
| Deletion.AfterEntryRemoval | controllers/scvmmmachine_controller.go:831-845 | the finalizer goes exactly when RemoveADComputer answered without error |
| Deletion.RemoveDirectoryEntry | controllers/scvmmmachine_controller.go:824-845 | RemoveADComputer is sent exactly when the spec asks for a directory entry; the finalizer goes exactly when the entry is cleared |
| Deletion.AfterRemove | controllers/scvmmmachine_controller.go:816-853 | after RemoveVM's answer: a transport failure is an error, an Error requeues 60, a VM not yet removed requeues 30 with VmDeleting; the finalizer goes only when the VM is removed and the entry cleared |
| Deletion.RemoveMachine | controllers/scvmmmachine_controller.go:813-853 | RemoveVM is sent first; RemoveADComputer only after a removed VM whose spec has an entry; same outcomes and finalizer rule |
| Deletion.Delete | controllers/scvmmmachine_controller.go:783-854 | no finalizer: nothing happens; no VM name: the finalizer goes without a remote call; otherwise it goes exactly when the VM is removed and its directory entry cleared |
| Reconcile.WithDiskSizes | controllers/scvmmmachine_controller.go:408-415 | the workaround sets every absent disk size to 0 and changes nothing else |
| Reconcile.OwnerLookup | controllers/scvmmmachine_controller.go:436-459 | the attempt proceeds exactly when the owner Machine and its Cluster are found; otherwise it ends without a remote command or panic |
| Reconcile.OwnerGateAsWritten | controllers/scvmmmachine_controller.go:430-481 | as written, only a stand-alone machine gets past the gate, and never with a ScvmmCluster; a blocked attempt sends nothing and never panics |
| Reconcile.OwnerGate | controllers/scvmmmachine_controller.go:430-481 | a stand-alone machine proceeds at once; an owned one proceeds only with its owner, its cluster, a ScvmmCluster and ready infrastructure; a blocked attempt sends nothing |
| Reconcile.AddFinalizer | controllers/scvmmmachine_controller.go:486-494 | the finalizer is added and the attempt ends with an empty result and no remote command, whether or not the write is accepted |
| Reconcile.Proceeding | controllers/scvmmmachine_controller.go:486-506 | a live machine without the finalizer only gets it; an unresolved provider ends the attempt quietly; a resolved one while deleting runs the deletion |
| Reconcile.ReconcileAttempt | controllers/scvmmmachine_controller.go:398-507 | a live machine without the finalizer gets no remote command; once the gate passed and the provider resolved, a deleting machine is deleted and any other is reconciled with the provider's library path, both on the record with its disk sizes filled in |
| ReconcileProperties.StandaloneIgnoresOwner | controllers/scvmmmachine_controller.go:433-435 | a stand-alone machine reconciles the same whatever the owner, cluster and ScvmmCluster lookups return |
| ReconcileProperties.ProviderErrorSwallowed | controllers/scvmmmachine_controller.go:496-499 | a provider that cannot be resolved ends the attempt with an empty result, with nothing written or sent |
| ReconcileProperties.AsWrittenOwnedMachineWaits | controllers/scvmmmachine_controller.go:463-472 | as written, every owned machine whose owner and cluster were found stops at the gate, whatever the ScvmmCluster lookup would give: VmCreated says ClusterNotAvailable, the attempt is done with no retry, nothing is sent and the finalizer is not added |
| ReconcileProperties.OwnedMachineReachesFinalizer | controllers/scvmmmachine_controller.go:463-494 | with the ScvmmCluster kept, such a live machine with ready infrastructure gets the finalizer, without a remote command |
| Controller.PatchScvmmMachine | controllers/scvmmmachine_controller.go:881-902 | the object and store end as the summary-then-write step says; the result says whether the store accepted the write |
| Controller.PatchReasonCondition | controllers/scvmmmachine_controller.go:856-879 | the in-place procedure ends in exactly the state and outcome of patchReasonCondition |
| Controller.CreateMachine | controllers/scvmmmachine_controller.go:562-598 | the in-place CreateVM step ends as the attempt model's CreateVM step |
| Controller.CreateNamed | controllers/scvmmmachine_controller.go:544-598 | the in-place directory-entry-then-CreateVM step ends as the model's |
| Controller.Create | controllers/scvmmmachine_controller.go:527-598 | the in-place create path ends as the model's |
| Controller.Expand | controllers/scvmmmachine_controller.go:635-657 | the in-place expand ends as the model's |
| Controller.Started | controllers/scvmmmachine_controller.go:715-721 | the in-place status copy and write end as the model's |
| Controller.Attach | controllers/scvmmmachine_controller.go:686-705 | the in-place attach of the cloud-init medium ends as the model's |
| Controller.Start | controllers/scvmmmachine_controller.go:706-714 | the in-place StartVM ends as the model's |
| Controller.Boot | controllers/scvmmmachine_controller.go:659-714 | the in-place bootstrap gating ends as the model's |
| Controller.Resize | controllers/scvmmmachine_controller.go:628-714 | the in-place expand scan and its continuation end as the model's |
| Controller.PoweredOff | controllers/scvmmmachine_controller.go:612-722 | the in-place powered-off branch ends as the model's |
| Controller.MakeAddresses | controllers/scvmmmachine_controller.go:731-739 | the array-filling loop yields one internal address per IPv4 address, in order |
| Controller.Running | controllers/scvmmmachine_controller.go:729-760 | the in-place running branch ends as the model's |
| Controller.Found | controllers/scvmmmachine_controller.go:600-760 | the in-place found-VM branch ends as the model's |
| Controller.ReconcileNormal | controllers/scvmmmachine_controller.go:509-761 | reconcileNormal in place ends in exactly the record, trace, writes and outcome of the attempt model |
| Controller.Unfinalize | controllers/scvmmmachine_controller.go:791-798 | the in-place finalizer removal ends as the model's |
| Controller.RemoveDirectoryEntry | controllers/scvmmmachine_controller.go:824-845 | the in-place directory entry removal ends as the model's |
| Controller.RemoveMachine | controllers/scvmmmachine_controller.go:813-853 | the in-place RemoveVM and what follows end as the model's |
| Controller.ReconcileDelete | controllers/scvmmmachine_controller.go:783-854 | reconcileDelete in place ends exactly as the deletion model |
| Controller.Gate | controllers/scvmmmachine_controller.go:430-481 | the in-place gate leaves the record alone when it lets the attempt through, and otherwise ends as the model's blocked attempt |
| Controller.Proceed | controllers/scvmmmachine_controller.go:486-506 | finalizer, provider resolution and the hand-over, in place, end as the model's |
| Controller.Reconcile | controllers/scvmmmachine_controller.go:398-507 | one whole Reconcile in place ends in exactly the record, trace, writes and outcome of the attempt model |

## Left out

- The WinRM transport (`createWinrmCmd`, `getWinrmResult`, `sendWinrmCommand`, `sendWinrmSpecCommand`) and the script loading of `getFuncScript` are network and file I/O. A session is a flag (it opens or not) plus a script of replies. Each reply is a transport error or one decoded document, so every property holds for every answer of the remote side.
- Provisioning.CreateNamed / Controller.CreateNamed: the CreateADComputer command carries the group list as the spec gives it. As written, the command line carries the shifted list of the first Findings row (`Escaping.Shifted`), so the recorded trace holds the intended group list, not the as-written one.
- Command arguments are kept as values before quoting. The command line text and the JSON encoding of disks, specs and metadata are library code; quoting itself is modelled and proved in `Escaping`. The `json.Marshal` errors are left out because they cannot occur for these types.
- The orchestration store lookups are inputs of one attempt, each found, absent or failed. They cover the Get of the record, the owner Machine, the Cluster, the ScvmmCluster, the ScvmmProvider and its secret, and the bootstrap data. The Get of the record, the `patch.NewHelper` error and the finalizer name are outside the model.
- Machine.Summary: library code computes the ready summary. It is modelled over the two owned conditions: the most severe false one, and the step counter while not deleting. When neither owned condition is set there is no summary, and `Machine.Summarized` keeps the previous Ready condition, as the library's setter does with a nil condition.
- Machine.CopyNonZeroTo and writeCloudInit are not part of this model. The merge is modelled field by field over the spec fields this controller uses; writing the cloud-init medium is a per-attempt input that says whether it succeeded.
- Machine.PatchHelper.Patch: a refused write is a per-attempt flag of the store. Conflicts and field-level patch semantics are left out.
- Quantities and timestamps: memory and disk sizes are integers of bytes, and timestamps are opaque values that are copied.
- ScriptErrors is decoded and never read by the controller, so no property mentions it.
- Escaping.QuotedList: the count of exactly n−1 `','` separators is not stated. Instead, `QuotedListRoundTrip` proves that the list reads back element by element, which fixes the separators between elements.
- Disks.NeedsExpand: the index past the reported disks is modelled as a panic, not as a precondition, because the code does not check it.
- Logging, `ExtraDebug`, `ScvmmClusterToScvmmMachines` and `SetupWithManager` have no effect on one attempt's decisions.
- `getBootstrapData` reads a secret from the store. Its result is an input of the attempt (`bootstrapData`): whether the data is found decides between a failure and AddIsoToVM.
- The manager's retry with back-off after an error, and concurrent reconciles of the same object, are outside one attempt.

## Findings

| source | as written | input that shows it | evidently intended | confidence | as-written member | corrected member |
|---|---|---|---|---|---|---|
| controllers/scvmmmachine_controller.go:360-362 | the loop ranges over `str[1:]` but writes `str[s]`, so the element at position k > 0 is `str[k-1]` | MemberOf `["admins", "servers"]` gives `'admins','admins'` | `'admins','servers'`: every group in order | high, not executed | Escaping.AsWrittenLosesSecondGroup | Escaping.EscapeSingleQuotesArray |
| controllers/scvmmmachine_controller.go:432-471 | `scvmmCluster` is a nil pointer that is never allocated; the client refuses a nil target, so the `Get` at line 469 always fails and the attempt stops with ClusterNotAvailable | any owned machine whose owner and Cluster exist, with or without a ScvmmCluster | fetch the ScvmmCluster into an allocated object and go on to the infrastructure check and the finalizer | high, not executed | ReconcileProperties.AsWrittenOwnedMachineWaits | Reconcile.OwnerGate |
