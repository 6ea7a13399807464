/**
 * reconcileDelete as a function of what the attempt sees: the finalizer is
 * the only thing that keeps a deleted record in the store, so it is removed
 * only once nothing remote is left behind (or nothing was ever created).
 */
module Deletion {
  import opened Common
  import opened Machine
  import opened Remote
  import opened Attempts

  /** The record without the finalizer, patched; the attempt ends. */
  function Unfinalize(ctx: Ctx, st: St): (a: Attempt)
    ensures !a.st.rec.hasFinalizer && a.st.trace == st.trace
    ensures a.outcome == if ctx.patchOk then Done else Failure
  {
    Attempt(Patched(ctx, st.(rec := st.rec.(hasFinalizer := false))), if ctx.patchOk then Done else Failure)
  }

  /** RemoveVM answered that the VM is gone. */
  predicate VMRemoved(r: Reply)
  {
    r.Document? && r.vm.error == "" && r.vm.message == "Removed"
  }

  /** The spec asks for no directory entry, or RemoveADComputer answered without an error. */
  predicate EntryCleared(spec: MachineSpec, r: Reply)
  {
    spec.activeDirectory.None? || (r.Document? && r.vm.error == "")
  }

  /** What follows RemoveADComputer's answer `r`: the finalizer goes when it reports no error. */
  function AfterEntryRemoval(ctx: Ctx, st: St, r: Reply): (a: Attempt)
    ensures a.st.trace == st.trace
    ensures a.st.rec.hasFinalizer <==> st.rec.hasFinalizer && !(r.Document? && r.vm.error == "")
    ensures r.Document? && r.vm.error == "" ==> a.outcome == if ctx.patchOk then Done else Failure
  {
    match VMView(r)
    case Failed => Reason(ctx, st, 0, true, VmCreated, VmFailed, "Failed to remove AD entry")
    case Decoded(vm) =>
      if vm.error != "" then Reason(ctx, st, 60, false, VmCreated, VmFailed, "Failed to remove AD entry: " + vm.error)
      else Unfinalize(ctx, st)
  }

  /** After the VM is removed: remove the directory entry when there is one, then the finalizer. */
  function RemoveDirectoryEntry(ctx: Ctx, st: St): (a: Attempt)
    ensures SendsOnly(st, a, {KRemoveADComputer})
    ensures Sends(st, a, KRemoveADComputer) <==> st.rec.spec.activeDirectory.Some?
    ensures a.st.rec.hasFinalizer <==> st.rec.hasFinalizer && !EntryCleared(st.rec.spec, Next(ctx, st))
    ensures EntryCleared(st.rec.spec, Next(ctx, st)) ==> a.outcome == if ctx.patchOk then Done else Failure
  {
    match st.rec.spec.activeDirectory
    case None => Unfinalize(ctx, st)
    case Some(ad) =>
      var c := RemoveADComputer(st.rec.spec.vmName, ad.ouPath, ad.domainController);
      var a := AfterEntryRemoval(ctx, Sent(st, c), Next(ctx, st));
      SentThen(st, c, a, {});
      a
  }

  /** The record after a RemoveVM that has not finished: the reported status and times. */
  function Removing(rec: Record, vm: VMResult): Record
  {
    rec.(status := rec.status.(vmStatus := vm.status, creationTime := vm.creationTime, modifiedTime := vm.modifiedTime))
  }

  /** What follows RemoveVM's answer `r`. */
  function AfterRemove(ctx: Ctx, st: St, r: Reply): (a: Attempt)
    ensures SendsOnly(st, a, {KRemoveADComputer})
    ensures Sends(st, a, KRemoveADComputer) <==> VMRemoved(r) && st.rec.spec.activeDirectory.Some?
    ensures a.st.rec.hasFinalizer <==> st.rec.hasFinalizer && !(VMRemoved(r) && EntryCleared(st.rec.spec, Next(ctx, st)))
    ensures r.TransportError? ==> a.outcome == Failure
    ensures r.Document? && r.vm.error != "" ==> a.outcome == Requeue(60)
    ensures r.Document? && r.vm.error == "" && r.vm.message != "Removed" ==>
      && a.outcome == Requeue(30) && VmCreated in a.st.rec.conditions
      && a.st.rec.conditions[VmCreated] == Condition(false, VmDeleting, SeverityInfo, "")
  {
    match VMView(r)
    case Failed => Reason(ctx, st, 0, true, VmCreated, VmFailed, "Failed to delete VM")
    case Decoded(vm) =>
      if vm.error != "" then Reason(ctx, st, 60, false, VmCreated, VmFailed, "Failed to delete VM: " + vm.error)
      else if vm.message == "Removed" then RemoveDirectoryEntry(ctx, st)
      else Reason(ctx, st.(rec := Removing(st.rec, vm)), 30, false, VmCreated, VmDeleting, "")
  }

  /**
   * RemoveVM and what follows from its answer: the finalizer goes only once
   * the VM is reported removed and its directory entry is cleared; a failed
   * removal comes back in 60 seconds, one still in progress in 30 with
   * VmDeleting; the directory entry is removed only after the VM.
   */
  function RemoveMachine(ctx: Ctx, st: St): (a: Attempt)
    ensures SendsOnly(st, a, {KRemoveVM, KRemoveADComputer})
    ensures |a.st.trace| > |st.trace| && a.st.trace[|st.trace|] == RemoveVM(st.rec.spec.vmName)
    ensures Sends(st, a, KRemoveADComputer) <==> VMRemoved(Next(ctx, st)) && st.rec.spec.activeDirectory.Some?
    ensures a.st.rec.hasFinalizer <==>
      st.rec.hasFinalizer && !(VMRemoved(Next(ctx, st)) && EntryCleared(st.rec.spec, ReplyAt(ctx.script, |st.trace| + 1)))
    ensures Next(ctx, st).TransportError? ==> a.outcome == Failure
    ensures Next(ctx, st).Document? && Next(ctx, st).vm.error != "" ==> a.outcome == Requeue(60)
    ensures Next(ctx, st).Document? && Next(ctx, st).vm.error == "" && Next(ctx, st).vm.message != "Removed" ==>
      && a.outcome == Requeue(30) && VmCreated in a.st.rec.conditions
      && a.st.rec.conditions[VmCreated] == Condition(false, VmDeleting, SeverityInfo, "")
  {
    var c := RemoveVM(st.rec.spec.vmName);
    var a := AfterRemove(ctx, Sent(st, c), Next(ctx, st));
    SentThen(st, c, a, {KRemoveADComputer});
    a
  }

  /**
   * reconcileDelete. A record without the finalizer is left alone; one whose
   * spec names no VM loses the finalizer at once, without a remote call;
   * otherwise the finalizer goes only when the VM is reported removed and
   * its directory entry cleared.
   */
  function Delete(ctx: Ctx, st: St): (a: Attempt)
    ensures SendsOnly(st, a, {KRemoveVM, KRemoveADComputer})
    ensures !st.rec.hasFinalizer ==> a == Attempt(st, Done)
    ensures st.rec.spec.vmName == "" ==> a.st.trace == st.trace
    ensures a.st.rec.hasFinalizer <==>
      (st.rec.hasFinalizer &&
       !(st.rec.spec.vmName == "" ||
         (ctx.patchOk && ctx.opens && VMRemoved(Next(ctx, st)) && EntryCleared(st.rec.spec, ReplyAt(ctx.script, |st.trace| + 1)))))
  {
    if !st.rec.hasFinalizer then Attempt(st, Done)
    else if st.rec.spec.vmName == "" then Unfinalize(ctx, st)
    else
      var st1 := Patched(ctx, st.(rec := st.rec.(conditions := st.rec.conditions[VmCreated := Condition(false, VmDeleting, SeverityInfo, "")])));
      if !ctx.patchOk || !ctx.opens then Attempt(st1, Failure)
      else RemoveMachine(ctx, st1)
  }
}
