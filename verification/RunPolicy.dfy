/**
  Every completed run, however it got there, met the result contract and the source policy, and every failed
  one announces its recorded code, which the page knows (service.py, execution_policy.py).
*/
module RunPolicy {
  import opened Common
  import opened RunRecords
  import opened PolicyLedger
  import opened Budgets
  import opened RunSystem
  import Projection

  /** What the recorded outcome of a completed run says of its answer and its sources. */
  predicate PolicyMet(limits: PolicyLimits, answer: string, o: Outcome) {
    && 1 <= |answer| <= 32000 && |answer| <= limits.maxAnswerChars && !Blank(answer)
    && o.stopReason == "completed" && o.usage.Some?
    && (o.usage.value.toolCallsSucceeded == 0 ==> o.resultSources == [])
    && (limits.sourcePolicy.Required? ==> o.resultSources != [])
    && (limits.sourcePolicy.RequiredIfToolUsed? && o.usage.value.toolCallsSucceeded > 0 ==> o.resultSources != [])
  }

  predicate IntentMet(limits: PolicyLimits, i: Intent) {
    && (i.Completing? ==> PolicyMet(limits, i.content, i.outcome))
    && (i.Failing? ==> Projection.KnownFailureCode(i.code) && i.outcome.failureCode == Some(i.code))
  }

  predicate WorkerMet(limits: PolicyLimits, w: Worker) {
    w.WantsTerminal? || w.Terminating? ==> IntentMet(limits, w.intent)
  }

  /** A failed run announces in its last event the code its outcome records, one the page knows. */
  predicate FailureAnnounced(row: RunRow) {
    && row.outcome.Some? && row.events != [] && row.events[|row.events| - 1].payload.RunFailed?
    && row.outcome.value.failureCode == Some(row.events[|row.events| - 1].payload.code)
    && Projection.KnownFailureCode(row.events[|row.events| - 1].payload.code)
  }

  ghost predicate RowMet(limits: PolicyLimits, row: RunRow, answers: seq<string>) {
    && (row.status.Completed? ==> row.outcome.Some? && |answers| == 1 && PolicyMet(limits, answers[0], row.outcome.value))
    && (row.status.Failed? ==> FailureAnnounced(row))
  }

  ghost predicate AllMet(limits: PolicyLimits, s: System) {
    && WorkerMet(limits, s.worker) && (s.stray.StrayTerminal? ==> IntentMet(limits, s.stray.intent))
    && RowMet(limits, s.row, s.answers)
  }

  // ----- steps that write nothing -----

  lemma FaultMet(limits: PolicyLimits, s: System, fault: Fault, ms: nat)
    ensures WorkerMet(limits, Faulted(s, fault, ms).worker) && Faulted(s, fault, ms).stray == s.stray
  {}

  lemma FinalizeMet(limits: PolicyLimits, s: System, ms: nat)
    ensures WorkerMet(limits, RunSystem.Finalize(limits, s, ms).worker)
    ensures RunSystem.Finalize(limits, s, ms).stray == s.stray
  {
    if s.result.None? {
      FaultMet(limits, s, PolicyFault(ExecutionFailed("agent_result_missing")), ms);
    } else {
      var r := PolicyLedger.ValidateResult(limits, s.ledger, s.result.value, s.text);
      ResultAcceptedIff(limits, s.ledger, s.result.value, s.text);
      if r.violation.Some? { FaultMet(limits, s.(ledger := r.ledger), PolicyFault(r.violation.value), ms); }
    }
  }

  /** What a step of the runner does to the worker's decision: nothing, or one that is met. */
  ghost predicate Decides(limits: PolicyLimits, s: System, t: System) {
    (WorkerMet(limits, s.worker) ==> WorkerMet(limits, t.worker)) && t.stray == s.stray
  }

  lemma YieldMet(limits: PolicyLimits, s: System, item: RuntimeItem, ms: nat)
    ensures Decides(limits, s, Yielded(limits, s, item, ms))
  {
    if s.worker.Streaming? {
      if s.result.Some? {
        FaultMet(limits, s, PolicyFault(ExecutionFailed("runtime_item_after_result")), ms);
      } else if item.EventItem? {
        ReceiveMet(limits, s, item.payload, ms);
      }
    }
  }

  lemma ReceiveMet(limits: PolicyLimits, s: System, p: Payload, ms: nat)
    ensures Decides(limits, s, ReceiveEvent(limits, s, p, ms))
  {
    var v := ValidateEvent(s.ledger, p);
    if v.Some? { FaultMet(limits, s, PolicyFault(v.value), ms); }
    FaultMet(limits, s, PolicyFault(ResultSchemaInvalid), ms);
    FaultMet(limits, s, OtherFault, ms);
  }

  lemma StreamEndMet(limits: PolicyLimits, s: System, ms: nat)
    ensures Decides(limits, s, StreamEnded(limits, s, ms))
  {
    if s.worker.Streaming? { FinalizeMet(limits, s, ms); }
  }

  lemma FaultedMet(limits: PolicyLimits, s: System, fault: Fault, ms: nat)
    ensures Decides(limits, s, WorkerFaulted(s, fault, ms)) && Decides(limits, s, AppendUndone(s, ms))
  {
    FaultMet(limits, s, fault, ms);
    FaultMet(limits, s.(lock := Free), DeadlineFault, ms);
  }

  lemma ConfirmMet(limits: PolicyLimits, s: System)
    ensures Decides(limits, s, Confirmed(s))
  {
    if s.worker.Confirming? {
      var r := AcceptEvent(s.ledger, s.worker.payload);
      if r.violation.Some? { FaultMet(limits, s.(lock := Free), PolicyFault(r.violation.value), 0); }
    }
  }

  lemma RunnerMet(limits: PolicyLimits, reg: Registry, s: System, step: SysStep)
    requires WorkerMet(limits, s.worker) && !Writes(step) && OfRunner(step)
    ensures WorkerMet(limits, QuietStep(limits, reg, s, step).worker)
    ensures QuietStep(limits, reg, s, step).stray == s.stray
  {
    match step
    case Yield(item, ms) => YieldMet(limits, s, item, ms);
    case StreamEnds(ms) => StreamEndMet(limits, s, ms);
    case WorkerFaults(fault, ms) => FaultedMet(limits, s, fault, ms);
    case AppendRollsBack(ms) => FaultedMet(limits, s, DeadlineFault, ms);
    case Confirms => ConfirmMet(limits, s);
    case Produce(_) =>
  }

  lemma ControlMet(limits: PolicyLimits, reg: Registry, s: System, step: SysStep)
    requires AllMet(limits, s) && !Writes(step) && !OfRunner(step)
    ensures var t := QuietStep(limits, reg, s, step);
      WorkerMet(limits, t.worker) && (t.stray.StrayTerminal? ==> IntentMet(limits, t.stray.intent))
  {}

  // ----- steps that write -----

  lemma IntentWriteMet(limits: PolicyLimits, s: System, i: Intent, now: int)
    requires Stored(s.row, s.answers) && RowMet(limits, s.row, s.answers) && IntentMet(limits, i)
    ensures RowMet(limits, WriteIntent(s, i, now).row, WriteIntent(s, i, now).answers)
  {}

  lemma OtherWriteMet(limits: PolicyLimits, row: RunRow, answers: seq<string>, op: RowOp)
    requires RowMet(limits, row, answers) && row.plan.Some? && !op.Complete? && !op.Fail?
    ensures RowMet(limits, ApplyRow(row, op), answers)
  {}

  lemma WorkerWriteMet(limits: PolicyLimits, s: System, step: SysStep)
    requires Stored(s.row, s.answers) && AllMet(limits, s) && Writes(step) && ByTheWorker(step)
    ensures AllMet(limits, WriteStep(s, step))
  {
    match step
    case StartCommit => OtherWriteMet(limits, s.row, s.answers, Start);
    case StrayStartCommits => OtherWriteMet(limits, s.row, s.answers, Start);
    case AppendCommits(now) => if s.worker.Appending? { OtherWriteMet(limits, s.row, s.answers, Append(s.worker.payload, now)); }
    case TerminalCommits(now) => if s.worker.Terminating? { IntentWriteMet(limits, s, s.worker.intent, now); }
    case StrayCommits(now) => StrayMet(limits, s, now);
  }

  lemma StrayMet(limits: PolicyLimits, s: System, now: int)
    requires Stored(s.row, s.answers) && AllMet(limits, s)
    ensures AllMet(limits, StrayLands(s, now))
  {
    match s.stray
    case StrayTerminal(i) => IntentWriteMet(limits, s, i, now);
    case StrayCancel(o) => OtherWriteMet(limits, s.row, s.answers, RowOp.Cancel(o, now));
    case StrayAppend(p) => OtherWriteMet(limits, s.row, s.answers, Append(p, now));
    case _ =>
  }

  lemma OtherStepMet(limits: PolicyLimits, s: System, step: SysStep)
    requires Stored(s.row, s.answers) && AllMet(limits, s) && Writes(step) && !ByTheWorker(step)
    ensures AllMet(limits, WriteStep(s, step))
  {
    match step
    case Meter(op) => if MeterOp(op) { OtherWriteMet(limits, s.row, s.answers, op); }
    case CancelCommits(now) => if s.lock.ByCancel? { OtherWriteMet(limits, s.row, s.answers, RowOp.Cancel(s.lock.outcome, now)); }
    case DetachedCancel(now) =>
      OtherWriteMet(limits, s.row, s.answers, RowOp.Cancel(OutcomeOf(EMPTY_LEDGER, Cancelled, "user_cancelled", None, false, 0), now));
    case RestartAndSweep(now) => OtherWriteMet(limits, s.row, s.answers, Sweep(now));
  }

  lemma StepMet(limits: PolicyLimits, reg: Registry, s: System, step: SysStep)
    requires Stored(s.row, s.answers) && AllMet(limits, s)
    ensures AllMet(limits, Next(limits, reg, s, step))
  {
    if Writes(step) {
      if ByTheWorker(step) { WorkerWriteMet(limits, s, step); } else { OtherStepMet(limits, s, step); }
    } else {
      if OfRunner(step) { RunnerMet(limits, reg, s, step); } else { ControlMet(limits, reg, s, step); }
      QuietLeavesStored(limits, reg, s, step);
    }
  }

  lemma {:induction false} TraceMet(limits: PolicyLimits, reg: Registry, s: System, steps: seq<SysStep>)
    requires SysInv(s) && AllMet(limits, s)
    ensures AllMet(limits, Trace(limits, reg, s, steps))
  {
    if steps != [] {
      var front := steps[..|steps| - 1];
      TraceMet(limits, reg, s, front);
      TraceInv(limits, reg, s, front);
      StepMet(limits, reg, Trace(limits, reg, s, front), steps[|steps| - 1]);
    }
  }

  /** On every interleaving a failed run announces the code its outcome records, and the page knows it. */
  lemma FailedRunSaysWhy(limits: PolicyLimits, reg: Registry, thread: ThreadId, key: string, plan: string, now: int,
                         steps: seq<SysStep>)
    ensures var row := Trace(limits, reg, Initial(thread, key, plan, now), steps).row; row.status.Failed? ==> FailureAnnounced(row)
  {
    InitialInv(thread, key, plan, now);
    TraceMet(limits, reg, Initial(thread, key, plan, now), steps);
  }

  /**
    On every interleaving: the answer of a completed run is within its limits and not blank, its sources are
    persisted ones, there are none without a succeeded tool call, and where the policy asks for some there are some.
  */
  lemma CompletedRunMeetsPolicy(limits: PolicyLimits, reg: Registry, thread: ThreadId, key: string, plan: string,
                                now: int,
                                steps: seq<SysStep>)
    ensures var s := Trace(limits, reg, Initial(thread, key, plan, now), steps);
      s.row.status.Completed? ==>
        && s.row.outcome.Some? && |s.answers| == 1 && PolicyMet(limits, s.answers[0], s.row.outcome.value)
        && forall id :: id in s.row.outcome.value.resultSources ==> id in SourceIds(s.row.events)
  {
    var start := Initial(thread, key, plan, now);
    InitialInv(thread, key, plan, now);
    TraceInv(limits, reg, start, steps);
    TraceMet(limits, reg, start, steps);
  }
}
