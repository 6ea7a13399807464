/**
 * The vocabulary of one reconcile attempt: what the attempt sees (whether the
 * remote session opens, the remote side's replies, whether the store accepts
 * writes), the state it threads (the record, the commands sent, the writes
 * made), and how it ends. Also patchReasonCondition, the step nearly every
 * failure and wait goes through.
 */
module Attempts {
  import opened Common
  import opened Machine
  import opened Remote

  /**
   * How an attempt ends: an empty result, a requeue after some seconds, a
   * returned error (the manager retries with back-off), or a Go run-time panic.
   */
  datatype Outcome = Done | Requeue(seconds: nat) | Failure | Panic

  /** What the attempt cannot influence: the session, the remote answers, the store. */
  datatype Ctx = Ctx(opens: bool, script: seq<Reply>, patchOk: bool)

  /** The record, the commands sent so far, and the writes that reached the store. */
  datatype St = St(rec: Record, trace: seq<Command>, writes: seq<Record>)

  datatype Attempt = Attempt(st: St, outcome: Outcome)

  /** The answer the next command will get. */
  function Next(ctx: Ctx, st: St): Reply
  {
    ReplyAt(ctx.script, |st.trace|)
  }

  /** The state after sending `c`. */
  function Sent(st: St, c: Command): (s: St)
    ensures s.trace == st.trace + [c] && s.rec == st.rec && s.writes == st.writes
  {
    st.(trace := st.trace + [c])
  }

  /** patchScvmmMachine: recompute the summary, then write the record if the store accepts it. */
  function Patched(ctx: Ctx, st: St): (s: St)
    ensures s.rec == Summarized(st.rec) && s.trace == st.trace
    ensures s.writes == st.writes + (if ctx.patchOk then [Summarized(st.rec)] else [])
  {
    var rec := Summarized(st.rec);
    st.(rec := rec, writes := if ctx.patchOk then st.writes + [rec] else st.writes)
  }

  /** The result patchReasonCondition returns. */
  function ResultOf(requeue: nat, failed: bool): (o: Outcome)
    ensures o == Failure <==> failed
    ensures o == Done <==> !failed && requeue == 0
    ensures o.Requeue? <==> !failed && requeue != 0
    ensures o.Requeue? ==> o.seconds == requeue
    ensures !o.Panic?
  {
    if failed then Failure else if requeue != 0 then Requeue(requeue) else Done
  }

  /** The severity patchReasonCondition marks with. */
  function SeverityFor(failed: bool): Severity
  {
    if failed then SeverityError else SeverityInfo
  }

  /**
   * patchReasonCondition: mark the machine not ready and the condition false
   * with the reason and message, patch, and end the attempt. A failed patch is
   * only logged.
   */
  function Reason(ctx: Ctx, st: St, requeue: nat, failed: bool, cond: CondType, reason: string, message: string): (a: Attempt)
    ensures !a.st.rec.status.ready
    ensures a.st.rec.conditions == st.rec.conditions[cond := Condition(false, reason, if failed then SeverityError else SeverityInfo, message)]
    ensures a.st.rec.summary.Some? && !a.st.rec.summary.value.status
    ensures a.st.rec.spec == st.rec.spec && a.st.rec.hasFinalizer == st.rec.hasFinalizer
    ensures a.st.rec.status.(ready := st.rec.status.ready) == st.rec.status
    ensures a.st.trace == st.trace
    ensures a.st.writes == st.writes + (if ctx.patchOk then [a.st.rec] else [])
    ensures a.outcome == ResultOf(requeue, failed)
  {
    var rec := st.rec.(status := st.rec.status.(ready := false),
                       conditions := st.rec.conditions[cond := Condition(false, reason, SeverityFor(failed), message)]);
    assert IsFalse(rec.conditions, cond) && (cond == VmCreated || cond == VmRunning);
    Attempt(Patched(ctx, st.(rec := rec)), ResultOf(requeue, failed))
  }

  /** The kinds of remote command, for stating which ones a path may send. */
  datatype Kind = KGetVM | KGenerateVMName | KCreateADComputer | KCreateVM | KAddVMSpec | KExpandVMDisks
                | KAddIsoToVM | KStartVM | KReadVM | KRemoveVM | KRemoveADComputer

  function KindOf(c: Command): Kind
  {
    match c
    case GetVM(_) => KGetVM
    case GenerateVMName(_) => KGenerateVMName
    case CreateADComputer(_, _, _, _, _) => KCreateADComputer
    case CreateVM(_, _, _, _, _, _, _, _, _, _, _, _) => KCreateVM
    case AddVMSpec(_) => KAddVMSpec
    case ExpandVMDisks(_, _) => KExpandVMDisks
    case AddIsoToVM(_, _) => KAddIsoToVM
    case StartVM(_) => KStartVM
    case ReadVM(_) => KReadVM
    case RemoveVM(_) => KRemoveVM
    case RemoveADComputer(_, _, _) => KRemoveADComputer
  }

  /** The kinds of the commands in `cs`. */
  function KindsIn(cs: seq<Command>): set<Kind>
  {
    if cs == [] then {} else {KindOf(cs[0])} + KindsIn(cs[1..])
  }

  /** A kind occurs among `cs` exactly when some command of `cs` has it. */
  lemma {:induction false} KindsInMeans(cs: seq<Command>, k: Kind)
    ensures k in KindsIn(cs) <==> exists i :: 0 <= i < |cs| && KindOf(cs[i]) == k
  {
    if cs != [] {
      KindsInMeans(cs[1..], k);
      if k in KindsIn(cs[1..]) {
        var i :| 0 <= i < |cs[1..]| && KindOf(cs[1..][i]) == k;
        assert KindOf(cs[i + 1]) == k;
      }
      if exists i :: 0 <= i < |cs| && KindOf(cs[i]) == k {
        var i :| 0 <= i < |cs| && KindOf(cs[i]) == k;
        if i > 0 {
          assert KindOf(cs[1..][i - 1]) == k;
        }
      }
    }
  }

  /** The commands the attempt sent after the state `st`. */
  function SentAfter(st: St, a: Attempt): seq<Command>
  {
    if |st.trace| <= |a.st.trace| then a.st.trace[|st.trace|..] else []
  }

  /** The attempt keeps the commands already sent and sends only commands of the given kinds. */
  predicate SendsOnly(st: St, a: Attempt, kinds: set<Kind>)
  {
    |st.trace| <= |a.st.trace| && a.st.trace[..|st.trace|] == st.trace && KindsIn(SentAfter(st, a)) <= kinds
  }

  /** The attempt sent a command of kind `k` (after the state `st`). */
  predicate Sends(st: St, a: Attempt, k: Kind)
  {
    k in KindsIn(SentAfter(st, a))
  }

  /** Sending a kind means some command after `st` in the trace has that kind. */
  lemma SendsMeans(st: St, a: Attempt, k: Kind)
    ensures Sends(st, a, k) <==> exists i :: |st.trace| <= i < |a.st.trace| && KindOf(a.st.trace[i]) == k
  {
    var cs := SentAfter(st, a);
    KindsInMeans(cs, k);
    if exists i :: |st.trace| <= i < |a.st.trace| && KindOf(a.st.trace[i]) == k {
      var i :| |st.trace| <= i < |a.st.trace| && KindOf(a.st.trace[i]) == k;
      assert KindOf(cs[i - |st.trace|]) == k;
    }
  }

  /** Sending only kinds outside `k` means never sending `k`. */
  lemma NotSent(st: St, a: Attempt, kinds: set<Kind>, k: Kind)
    requires SendsOnly(st, a, kinds) && k !in kinds
    ensures !Sends(st, a, k)
  {
  }

  /** A wider set of kinds still covers what was sent. */
  lemma Widen(st: St, a: Attempt, kinds: set<Kind>, wider: set<Kind>)
    requires SendsOnly(st, a, kinds) && kinds <= wider
    ensures SendsOnly(st, a, wider)
  {
  }

  /**
   * An attempt that continues after sending `c` sends `c` first: it covers
   * one more kind, and the kinds it sends are those of `c` and of its
   * continuation.
   */
  lemma SentThen(st: St, c: Command, a: Attempt, kinds: set<Kind>)
    requires SendsOnly(Sent(st, c), a, kinds)
    ensures SendsOnly(st, a, kinds + {KindOf(c)})
    ensures a.st.trace[|st.trace|] == c
    ensures KindsIn(SentAfter(st, a)) == {KindOf(c)} + KindsIn(SentAfter(Sent(st, c), a))
  {
    var n := |st.trace|;
    assert a.st.trace[..n + 1][n] == c;
    assert a.st.trace[..n] == a.st.trace[..n + 1][..n];
    assert SentAfter(st, a)[1..] == SentAfter(Sent(st, c), a);
  }

  /** patchReasonCondition sends nothing. */
  lemma ReasonSendsNothing(ctx: Ctx, st: St, requeue: nat, failed: bool, cond: CondType, reason: string, message: string)
    ensures SendsOnly(st, Reason(ctx, st, requeue, failed, cond, reason, message), {})
  {
  }
}
