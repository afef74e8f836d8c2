/**
  One run with its worker, its policy ledger, its durable row, cancels, timeouts,
  quarantined transactions and process restarts, as one transition system (service.py).
*/
module RunSystem {
  import opened Common
  import opened RunRecords
  import opened PolicyLedger
  import opened Budgets

  /** A terminal write the worker has decided on; its outcome is already computed. */
  datatype Intent =
    | Completing(content: string, outcome: Outcome)
    | Failing(code: string, category: ErrorCategory, outcome: Outcome)

  datatype Worker =
    | NotLaunched
    | Starting
    | Streaming
    | WantsAppend(payload: Payload)
    | Appending(payload: Payload)   // lock held, transaction not committed
    | Confirming(payload: Payload)  // lock held, committed, ledger not yet told
    | WantsTerminal(intent: Intent)
    | Terminating(intent: Intent)   // lock held, transaction not committed
    | Gone

  datatype Lock = Free | ByWorker | ByCancel(outcome: Outcome)

  /** A transaction that neither finished nor rolled back within its grace. */
  datatype Stray = NoStray | StrayAppend(payload: Payload) | StrayConfirm(payload: Payload)
    | StrayTerminal(intent: Intent) | StrayCancel(outcome: Outcome)

  datatype System = System(
    row: RunRow, answers: seq<string>, ledger: Ledger, worker: Worker, text: string, result: Option<AgentResult>,
    lock: Lock, stray: Stray, strayStart: bool, fatal: bool, restarted: bool)

  datatype Fault = PolicyFault(violation: Violation) | DeadlineFault | ProviderFault | OtherFault

  datatype RuntimeItem = EventItem(payload: Payload) | ResultItem(result: AgentResult)

  datatype SysStep =
    | Launch
    | StartCommit
    | StartQuarantined   // the start transaction did not end within its grace
    | StrayStartCommits
    | Yield(item: RuntimeItem, elapsedMs: nat)
    | StreamEnds(elapsedMs: nat)
    | WorkerFaults(fault: Fault, elapsedMs: nat)
    | WorkerCancelled
    | LockForAppend
    | AppendCommits(now: int)
    | AppendRollsBack(elapsedMs: nat)
    | Confirms
    | LockForTerminal
    | TerminalCommits(now: int)
    | TerminalRollsBack
    | Quarantine
    | StrayCommits(now: int)
    | Produce(op: LedgerOp)
    | Meter(write: RowOp)
    | LockForCancel(elapsedMs: nat)
    | CancelCommits(now: int)
    | CancelRollsBack
    | DetachedCancel(now: int)
    | OtherRunTurnsFatal
    | RestartAndSweep(now: int)

  function FailIntent(l: Ledger, fault: Fault, elapsedMs: nat): (Ledger, Intent) {
    match fault
    case PolicyFault(v) =>
      var noted := if v.ResultSchemaInvalid? then RecordValidationFailure(l) else l;
      (noted, Failing(FailureCode(v), FailureCategory(v), OutcomeOf(noted, Failed, StopReason(v), Some(FailureCode(v)), true, elapsedMs)))
    case DeadlineFault =>
      (l, Failing("run_timeout", TimeoutError, OutcomeOf(l, Failed, "run_timeout", Some("run_timeout"), true, elapsedMs)))
    case ProviderFault => GenericFailure(l, ProviderError, elapsedMs)
    case OtherFault => GenericFailure(l, InternalError, elapsedMs)
  }

  function GenericFailure(l: Ledger, category: ErrorCategory, elapsedMs: nat): (Ledger, Intent) {
    (l, Failing("agent_execution_failed", category,
                OutcomeOf(l, Failed, "agent_execution_failed", Some("agent_execution_failed"), true, elapsedMs)))
  }

  function Faulted(s: System, fault: Fault, elapsedMs: nat): System {
    var f := FailIntent(s.ledger, fault, elapsedMs);
    s.(ledger := f.0, worker := WantsTerminal(f.1))
  }

  /** The worker validates an item before it asks for the lock. */
  function ReceiveEvent(limits: PolicyLimits, s: System, p: Payload, elapsedMs: nat): System {
    var v := ValidateEvent(s.ledger, p);
    if v.Some? then Faulted(s, PolicyFault(v.value), elapsedMs)
    else if !ValidRuntimePayload(p) then
      Faulted(s, if p.MessageDelta? then PolicyFault(ResultSchemaInvalid) else OtherFault, elapsedMs)
    else if p.MessageDelta? && |s.text| + |p.delta| > limits.maxAnswerChars then
      Faulted(s, PolicyFault(ResultSchemaInvalid), elapsedMs)
    else s.(text := if p.MessageDelta? then s.text + p.delta else s.text, worker := WantsAppend(p))
  }

  function Finalize(limits: PolicyLimits, s: System, elapsedMs: nat): System {
    if s.result.None? then Faulted(s, PolicyFault(ExecutionFailed("agent_result_missing")), elapsedMs)
    else
      var r := PolicyLedger.ValidateResult(limits, s.ledger, s.result.value, s.text);
      if r.violation.Some? then Faulted(s.(ledger := r.ledger), PolicyFault(r.violation.value), elapsedMs)
      else s.(ledger := r.ledger, worker := WantsTerminal(
                Completing(s.result.value.text, OutcomeOf(r.ledger, Completed, "completed", None, true, elapsedMs))))
  }

  function WriteIntent(s: System, intent: Intent, now: int): System {
    match intent
    case Completing(content, o) =>
      s.(row := CompleteRow(s.row, content, o, now), answers := if s.row.status.Running? then s.answers + [content] else s.answers)
    case Failing(code, category, o) => s.(row := FailRow(s.row, code, category, AttemptFailed, Some(o), now))
  }

  /** Where the run's own coroutine may be interrupted without a transaction in flight. */
  predicate Interruptible(w: Worker) {
    w.Starting? || w.Streaming? || w.WantsAppend? || w.WantsTerminal?
  }

  /** The provider-call meter writes: an attempt starts, finishes or records its usage. */
  predicate MeterOp(op: RowOp) {
    op.StartAttempt? || op.RecordUsage?
    || (op.FinishAttempt? && (op.status.Succeeded? || op.status.AttemptFailed? || op.status.AttemptCancelled?))
  }

  function StrayOf(s: System): Stray {
    match s.lock
    case Free => NoStray
    case ByCancel(o) => StrayCancel(o)
    case ByWorker =>
      match s.worker
      case Appending(p) => StrayAppend(p)
      case Confirming(p) => StrayConfirm(p)
      case Terminating(i) => StrayTerminal(i)
      case _ => NoStray
  }

  function StrayLands(s: System, now: int): System {
    match s.stray
    case NoStray => s
    case StrayAppend(p) =>
      if s.row.status.Running? then s.(row := AppendRow(s.row, p, now), stray := StrayConfirm(p)) else s.(stray := NoStray)
    case StrayConfirm(p) => s.(ledger := AcceptEvent(s.ledger, p).ledger, stray := NoStray)
    case StrayTerminal(i) => WriteIntent(s, i, now).(stray := NoStray)
    case StrayCancel(o) => s.(row := CancelRow(s.row, o, now), stray := NoStray)
  }

  // ----- the steps; one that is not enabled changes nothing -----

  function Launched(s: System): System {
    if s.worker.NotLaunched? && !s.fatal then s.(worker := Starting) else s
  }

  function Started(s: System): System {
    if s.worker.Starting? && !s.fatal
    then s.(row := StartRow(s.row), worker := if s.row.status.Created? then Streaming else Gone) else s
  }

  /** The start transaction did not end within its grace; it may still commit. */
  function StartAbandoned(s: System): System {
    if s.worker.Starting? then s.(worker := Gone, strayStart := true, fatal := true) else s
  }

  function StartLands(s: System): System {
    if s.strayStart then s.(row := StartRow(s.row), strayStart := false) else s
  }

  function Yielded(limits: PolicyLimits, s: System, item: RuntimeItem, ms: nat): System {
    if !s.worker.Streaming? then s
    else if s.result.Some? then Faulted(s, PolicyFault(ExecutionFailed("runtime_item_after_result")), ms)
    else
      match item
      case EventItem(p) => ReceiveEvent(limits, s, p, ms)
      case ResultItem(r) => s.(result := Some(r))
  }

  function StreamEnded(limits: PolicyLimits, s: System, ms: nat): System {
    if s.worker.Streaming? then Finalize(limits, s, ms) else s
  }

  function WorkerFaulted(s: System, fault: Fault, ms: nat): System {
    if s.worker.Starting? || s.worker.Streaming? || s.worker.WantsAppend? then Faulted(s, fault, ms) else s
  }

  function Left(s: System): System {
    if Interruptible(s.worker) then s.(worker := Gone) else s
  }

  function AppendLocked(s: System): System {
    if s.worker.WantsAppend? && s.lock.Free?
    then if s.fatal then s.(worker := Gone) else s.(lock := ByWorker, worker := Appending(s.worker.payload)) else s
  }

  function Appended(s: System, now: int): System {
    if s.worker.Appending?
    then if s.row.status.Running?
         then s.(row := AppendRow(s.row, s.worker.payload, now), worker := Confirming(s.worker.payload))
         else s.(lock := Free, worker := Gone)
    else s
  }

  function AppendUndone(s: System, ms: nat): System {
    if s.worker.Appending? then Faulted(s.(lock := Free), DeadlineFault, ms) else s
  }

  function Confirmed(s: System): System {
    if s.worker.Confirming?
    then
      var r := AcceptEvent(s.ledger, s.worker.payload);
      if r.violation.Some? then Faulted(s.(lock := Free), PolicyFault(r.violation.value), 0)
      else s.(ledger := r.ledger, lock := Free, worker := Streaming)
    else s
  }

  function TerminalLocked(s: System): System {
    if s.worker.WantsTerminal? && s.lock.Free?
    then if s.fatal then s.(worker := Gone) else s.(lock := ByWorker, worker := Terminating(s.worker.intent)) else s
  }

  function TerminalWritten(s: System, now: int): System {
    if s.worker.Terminating? then WriteIntent(s, s.worker.intent, now).(lock := Free, worker := Gone) else s
  }

  function TerminalUndone(s: System): System {
    if s.worker.Terminating? then s.(lock := Free, worker := Gone, fatal := true) else s
  }

  function Quarantined(s: System): System {
    if s.lock.Free? || s.stray != NoStray then s
    else s.(stray := StrayOf(s), fatal := true, lock := Free, worker := if s.lock.ByWorker? then Gone else s.worker)
  }

  function Produced(limits: PolicyLimits, reg: Registry, s: System, op: LedgerOp): System {
    if op.Accept? then s else s.(ledger := Perform(limits, reg, s.ledger, op).ledger)
  }

  function Metered(s: System, write: RowOp): System {
    if MeterOp(write) then s.(row := ApplyRow(s.row, write)) else s
  }

  function CancelLocked(s: System, ms: nat): System {
    if !s.worker.NotLaunched? && s.lock.Free? && !s.fatal && !s.restarted
    then s.(lock := ByCancel(OutcomeOf(s.ledger, Cancelled, "user_cancelled", None, true, ms))) else s
  }

  function CancelWritten(s: System, now: int): System {
    if s.lock.ByCancel? then s.(row := CancelRow(s.row, s.lock.outcome, now), lock := Free) else s
  }

  function CancelUndone(s: System): System {
    if s.lock.ByCancel? then s.(lock := Free) else s
  }

  function CancelledDetached(s: System, now: int): System {
    s.(row := CancelRow(s.row, OutcomeOf(EMPTY_LEDGER, Cancelled, "user_cancelled", None, false, 0), now))
  }

  function Swept(s: System, now: int): System {
    s.(row := SweepRow(s.row, now), worker := Gone, lock := Free, stray := NoStray, strayStart := false, fatal := false,
       restarted := true)
  }

  /** The steps that write the stored run. */
  predicate Writes(step: SysStep) {
    step.StartCommit? || step.StrayStartCommits? || step.AppendCommits? || step.TerminalCommits? || step.StrayCommits?
    || step.Meter? || step.CancelCommits? || step.DetachedCancel? || step.RestartAndSweep?
  }

  function WriteStep(s: System, step: SysStep): System
    requires Writes(step)
  {
    match step
    case StartCommit => Started(s)
    case StrayStartCommits => StartLands(s)
    case AppendCommits(now) => Appended(s, now)
    case TerminalCommits(now) => TerminalWritten(s, now)
    case StrayCommits(now) => StrayLands(s, now)
    case Meter(write) => Metered(s, write)
    case CancelCommits(now) => CancelWritten(s, now)
    case DetachedCancel(now) => CancelledDetached(s, now)
    case RestartAndSweep(now) => Swept(s, now)
  }

  /** What the live process does in between. */
  function QuietStep(limits: PolicyLimits, reg: Registry, s: System, step: SysStep): System
    requires !Writes(step)
  {
    match step
    case Launch => Launched(s)
    case StartQuarantined => StartAbandoned(s)
    case Yield(item, ms) => Yielded(limits, s, item, ms)
    case StreamEnds(ms) => StreamEnded(limits, s, ms)
    case WorkerFaults(fault, ms) => WorkerFaulted(s, fault, ms)
    case WorkerCancelled => Left(s)
    case LockForAppend => AppendLocked(s)
    case AppendRollsBack(ms) => AppendUndone(s, ms)
    case Confirms => Confirmed(s)
    case LockForTerminal => TerminalLocked(s)
    case TerminalRollsBack => TerminalUndone(s)
    case Quarantine => Quarantined(s)
    case Produce(op) => Produced(limits, reg, s, op)
    case LockForCancel(ms) => CancelLocked(s, ms)
    case CancelRollsBack => CancelUndone(s)
    case OtherRunTurnsFatal => s.(fatal := true)
  }

  function Next(limits: PolicyLimits, reg: Registry, s: System, step: SysStep): System {
    if Writes(step) then WriteStep(s, step) else QuietStep(limits, reg, s, step)
  }

  function Initial(thread: ThreadId, key: string, plan: string, now: int): System {
    System(NewRow(thread, key, plan, now), [], EMPTY_LEDGER, NotLaunched, "", None, Free, NoStray, false, false, false)
  }

  function Trace(limits: PolicyLimits, reg: Registry, s: System, steps: seq<SysStep>): System {
    if steps == [] then s else Next(limits, reg, Trace(limits, reg, s, steps[..|steps| - 1]), steps[|steps| - 1])
  }

  // ----- the invariant -----

  function Unconfirmed(s: System): Option<Payload> {
    if s.worker.Confirming? then Some(s.worker.payload)
    else if s.stray.StrayConfirm? then Some(s.stray.payload)
    else None
  }

  function SourceOf(p: Option<Payload>): seq<string> {
    if p.Some? && p.value.SourceAdded? then [p.value.sourceId] else []
  }

  /** The event the worker or a stray transaction still has to append or confirm. */
  function Outstanding(s: System): Option<Payload> {
    if s.worker.WantsAppend? || s.worker.Appending? || s.worker.Confirming? then Some(s.worker.payload)
    else if s.stray.StrayAppend? || s.stray.StrayConfirm? then Some(s.stray.payload)
    else None
  }

  /** The delta text the worker has counted but the log does not yet hold. */
  function Ahead(s: System): string {
    if (s.worker.WantsAppend? || s.worker.Appending?) && s.worker.payload.MessageDelta? then s.worker.payload.delta else ""
  }

  /** An outcome computed from the ledger agrees with the log of its run. */
  ghost predicate Agrees(o: Outcome, status: RunStatus, row: RunRow) {
    ValidOutcome(o) && o.status == status && o.usage.Some? && o.acceptedSources == SourceIds(row.events)
  }

  ghost predicate IntentAgrees(i: Intent, row: RunRow) {
    match i
    case Completing(content, o) => Agrees(o, Completed, row) && content == DeltaText(row.events)
    case Failing(code, _, o) => Agrees(o, Failed, row) && o.failureCode == Some(code)
  }

  ghost predicate LedgerInv(s: System) {
    && EvidenceInv(s.ledger)
    && SourceIds(s.row.events) == s.ledger.persistedOrder + SourceOf(Unconfirmed(s))
    && (Outstanding(s).Some? ==> ValidateEvent(s.ledger, Outstanding(s).value).None? && ValidRuntimePayload(Outstanding(s).value))
    && (s.ledger.validation.Passed? ==> s.worker.WantsTerminal? || s.worker.Terminating? || s.worker.Gone?)
  }

  ghost predicate LockInv(s: System) {
    && (s.lock.ByWorker? <==> s.worker.Appending? || s.worker.Confirming? || s.worker.Terminating?)
    && (s.stray != NoStray ==> s.fatal && s.lock.Free?)
    && (s.stray.StrayAppend? || s.stray.StrayConfirm? || s.stray.StrayTerminal? ==> s.worker.Gone?)
    && (s.worker.NotLaunched? || s.worker.Starting? ==> s.text == "" && DeltaText(s.row.events) == "")
    && (s.worker.NotLaunched? ==> s.lock.Free?)
    && (s.strayStart ==> s.fatal && s.worker.Gone?)
  }

  ghost predicate PlanInv(s: System) {
    && (s.worker.WantsTerminal? || s.worker.Terminating? ==> IntentAgrees(s.worker.intent, s.row))
    && (s.stray.StrayTerminal? ==> IntentAgrees(s.stray.intent, s.row))
    && (s.lock.ByCancel? ==> Agrees(s.lock.outcome, Cancelled, s.row))
    && (s.stray.StrayCancel? ==> Agrees(s.stray.outcome, Cancelled, s.row))
    && (s.worker.Streaming? || s.worker.WantsAppend? || s.worker.Appending? || s.worker.Confirming? ==>
         s.text == DeltaText(s.row.events) + Ahead(s))
  }

  /** A terminal outcome is detached (no usage, a cancel) or agrees with the log. */
  ghost predicate OutcomeInv(row: RunRow) {
    && row.plan.Some?
    && Distinct(SourceIds(row.events))
    && (row.outcome.Some? ==>
         if row.outcome.value.usage.None? && row.outcome.value.status.Cancelled? then row.outcome.value.acceptedSources == []
         else row.outcome.value.acceptedSources == SourceIds(row.events))
  }

  ghost predicate AnswerInv(row: RunRow, answers: seq<string>) {
    if row.status.Completed? then
      && |row.events| >= 2 && answers == [DeltaText(row.events)]
      && row.events[|row.events| - 2].payload == MessageCompleted(DeltaText(row.events))
    else answers == []
  }

  /** What the stored run satisfies, whoever wrote it. */
  ghost predicate Stored(row: RunRow, answers: seq<string>) {
    RowInv(row) && OutcomeInv(row) && AnswerInv(row, answers)
  }

  /** The live process agrees with the stored run; a restarted process holds nothing. */
  ghost predicate Agreement(s: System) {
    && LockInv(s)
    && (!s.restarted ==> LedgerInv(s) && PlanInv(s))
    && (s.restarted ==> !s.row.status.Active() && s.worker.Gone? && s.lock.Free? && s.stray == NoStray)
  }

  ghost predicate SysInv(s: System) { Stored(s.row, s.answers) && Agreement(s) }

  // ----- rows -----

  ghost predicate SameText(events: seq<EventRow>, more: seq<EventRow>) {
    DeltaText(more) == DeltaText(events) && SourceIds(more) == SourceIds(events)
  }

  lemma OtherEventKeepsText(events: seq<EventRow>, e: EventRow)
    requires !e.payload.MessageDelta? && !e.payload.SourceAdded?
    ensures SameText(events, events + [e])
  {
    DeltaTextAppend(events, e);
    SourceIdsAppend(events, e);
  }

  /** What a terminal write leaves of the log: the same deltas and the same sources. */
  lemma TerminalWriteKeepsText(row: RunRow, op: RowOp)
    requires op.Complete? || op.Fail? || op.Cancel? || op.Sweep?
    ensures SameText(row.events, ApplyRow(row, op).events)
  {
    match op
    case Complete(content, _, o, now) => CompleteKeepsText(row, content, o, now);
    case Fail(code, category, o, now) => FailKeepsText(row, code, category, AttemptFailed, Some(o), now);
    case Cancel(o, now) =>
      if row.status.Active() { OtherEventKeepsText(row.events, CancelRow(row, o, now).events[|row.events|]); }
    case Sweep(now) => FailKeepsText(row, "service_restarted", ServiceError, Interrupted, SweepOutcome(row), now);
  }

  lemma FailKeepsText(row: RunRow, code: string, category: ErrorCategory, open: AttemptStatus, o: Option<Outcome>,
                      now: int)
    ensures SameText(row.events, FailRow(row, code, category, open, o, now).events)
  {
    if row.status.Active() { OtherEventKeepsText(row.events, FailRow(row, code, category, open, o, now).events[|row.events|]); }
  }

  lemma CompleteKeepsText(row: RunRow, content: string, o: Outcome, now: int)
    ensures SameText(row.events, CompleteRow(row, content, o, now).events)
  {
    if row.status.Running? {
      var more, n := CompleteRow(row, content, o, now).events, |row.events|;
      OtherEventKeepsText(row.events, more[n]);
      OtherEventKeepsText(row.events + [more[n]], more[n + 1]);
      assert more == row.events + [more[n]] + [more[n + 1]];
    }
  }

  lemma CancelKeeps(s: System, o: Outcome, now: int)
    requires Stored(s.row, s.answers)
    requires ValidOutcome(o) && o.status.Cancelled?
    requires if o.usage.None? then o.acceptedSources == [] else o.acceptedSources == SourceIds(s.row.events)
    ensures var row := CancelRow(s.row, o, now);
      && Stored(row, s.answers) && !row.status.Active()
      && DeltaText(row.events) == DeltaText(s.row.events) && SourceIds(row.events) == SourceIds(s.row.events)
  {
    CancelStored(s.row, s.answers, o, now);
    TerminalWriteKeepsText(s.row, RowOp.Cancel(o, now));
  }

  /** A run that ends without an answer: what the new row must show. */
  lemma EndedStored(row: RunRow, answers: seq<string>, next: RunRow)
    requires Stored(row, answers) && row.status.Active() && RowInv(next) && SameText(row.events, next.events)
    requires next.plan == row.plan && !next.status.Completed? && next.outcome.Some?
    requires var o := next.outcome.value;
      o.acceptedSources == if Detached(o) then [] else SourceIds(row.events)
    ensures Stored(next, answers)
  {}

  lemma CancelFields(row: RunRow, o: Outcome, now: int)
    requires row.status.Active()
    ensures var next := CancelRow(row, o, now); next.plan == row.plan && next.status.Cancelled? && next.outcome == Some(o)
  {}

  lemma CancelStored(row: RunRow, answers: seq<string>, o: Outcome, now: int)
    requires Stored(row, answers) && ValidOutcome(o) && o.status.Cancelled?
    requires if o.usage.None? then o.acceptedSources == [] else o.acceptedSources == SourceIds(row.events)
    ensures Stored(CancelRow(row, o, now), answers) && !CancelRow(row, o, now).status.Active()
  {
    CancelKeepsShape(row, o, now);
    if row.status.Active() {
      TerminalWriteKeepsText(row, RowOp.Cancel(o, now));
      CancelFields(row, o, now);
      EndedStored(row, answers, CancelRow(row, o, now));
    }
  }

  lemma CompletionKeeps(row: RunRow, answers: seq<string>, content: string, o: Outcome, now: int)
    requires Stored(row, answers) && Agrees(o, Completed, row) && content == DeltaText(row.events)
    ensures var next := CompleteRow(row, content, o, now);
      && Stored(next, if row.status.Running? then answers + [content] else answers) && SameText(row.events, next.events)
      && (next.status.Active() ==> row.status.Active())
  {
    RowInvKept(row, Complete(content, "", o, now));
    CompleteKeepsText(row, content, o, now);
    var next := CompleteRow(row, content, o, now);
    if row.status.Running? {
      assert OutcomeInv(next);
      assert AnswerInv(next, answers + [content]);
    }
  }

  lemma FailureKeeps(row: RunRow, answers: seq<string>, code: string, category: ErrorCategory, o: Outcome, now: int)
    requires Stored(row, answers) && Agrees(o, Failed, row) && o.failureCode == Some(code)
    ensures var next := FailRow(row, code, category, AttemptFailed, Some(o), now);
      && Stored(next, answers) && SameText(row.events, next.events)
      && (next.status.Active() ==> row.status.Active())
  {
    RowInvKept(row, Fail(code, category, o, now));
    FailKeepsText(row, code, category, AttemptFailed, Some(o), now);
  }

  lemma IntentKeeps(s: System, i: Intent, now: int)
    requires Stored(s.row, s.answers) && IntentAgrees(i, s.row)
    ensures var next := WriteIntent(s, i, now);
      && Stored(next.row, next.answers) && SameText(s.row.events, next.row.events)
      && (next.row.status.Active() ==> s.row.status.Active())
  {
    match i
    case Completing(content, o) => CompletionKeeps(s.row, s.answers, content, o, now);
    case Failing(code, category, o) => FailureKeeps(s.row, s.answers, code, category, o, now);
  }

  lemma SweepKeeps(s: System, now: int)
    requires Stored(s.row, s.answers)
    ensures var row := SweepRow(s.row, now);
      Stored(row, s.answers) && !row.status.Active()
  {
    RowInvKept(s.row, Sweep(now));
    if s.row.status.Active() {
      TerminalWriteKeepsText(s.row, Sweep(now));
      DedupOfDistinct(SourceIds(s.row.events));
      SweepFields(s.row, now);
      EndedStored(s.row, s.answers, SweepRow(s.row, now));
    }
  }

  lemma SweepFields(row: RunRow, now: int)
    requires row.status.Active() && row.plan.Some?
    ensures var next := SweepRow(row, now);
      && next.plan == row.plan && next.status.Failed? && next.outcome.Some? && !Detached(next.outcome.value)
      && next.outcome.value.acceptedSources == Dedup(SourceIds(row.events))
  {}

  lemma AppendKeeps(row: RunRow, answers: seq<string>, p: Payload, now: int)
    requires Stored(row, answers)
    requires row.status.Running? && ValidRuntimePayload(p)
    requires Distinct(SourceIds(row.events) + SourceOf(Some(p)))
    ensures var next := AppendRow(row, p, now);
      && Stored(next, answers)
      && SourceIds(next.events) == SourceIds(row.events) + SourceOf(Some(p))
      && DeltaText(next.events) == DeltaText(row.events) + (if p.MessageDelta? then p.delta else "")
  {
    var next := AppendRow(row, p, now);
    RowInvKept(row, Append(p, now));
    SourceIdsAppend(row.events, next.events[|row.events|]);
    DeltaTextAppend(row.events, next.events[|row.events|]);
  }

  lemma MeterKeeps(row: RunRow, answers: seq<string>, op: RowOp)
    requires Stored(row, answers)
    requires MeterOp(op)
    ensures var next := ApplyRow(row, op);
      && Stored(next, answers)
      && next.events == row.events && next.status == row.status
  {
    AttemptKeepsShape(row, op);
  }

  // ----- the ledger -----

  /** Nothing a runner does to the ledger can touch the evidence or invalidate an already validated event. */
  ghost predicate Harmless(l: Ledger, r: Ledger) {
    && r.persistedOrder == l.persistedOrder && r.persistedSources == l.persistedSources
    && r.resultSources == l.resultSources && r.validation == l.validation
    && forall p :: ValidateEvent(l, p).None? ==> ValidateEvent(r, p).None?
  }

  lemma CountersHarmless(l: Ledger, r: Ledger)
    requires r.persistedOrder == l.persistedOrder && r.persistedSources == l.persistedSources
    requires r.resultSources == l.resultSources && r.validation == l.validation
    requires r.started == l.started && r.finished == l.finished && r.sources == l.sources
    requires r.persistedStarted == l.persistedStarted && r.persistedFinished == l.persistedFinished
    ensures Harmless(l, r)
  {}

  lemma ModelCallHarmless(limits: PolicyLimits, l: Ledger, now: int)
    ensures Harmless(l, BeforeModelCall(limits, l, now).ledger)
  {
    CountersHarmless(l, BeforeModelCall(limits, l, now).ledger);
  }

  lemma ReserveHarmless(limits: PolicyLimits, reg: Registry, l: Ledger, calls: seq<RawCall>, now: int)
    ensures Harmless(l, ReserveToolCalls(limits, reg, l, calls, now).ledger)
  {
    ReserveTouches(limits, reg, l, calls, now);
    CountersHarmless(l, ReserveToolCalls(limits, reg, l, calls, now).ledger);
  }

  lemma ResponseHarmless(limits: PolicyLimits, reg: Registry, l: Ledger, texts: seq<string>, calls: seq<RawCall>,
                         now: int)
    ensures Harmless(l, AfterModelResponse(limits, reg, l, texts, calls, now).ledger)
  {
    var noted := RecordTexts(l, texts);
    TextsHarmless(l, texts);
    CountersHarmless(l, noted);
    ReserveHarmless(limits, reg, noted, calls, now);
  }

  lemma BeginHarmless(limits: PolicyLimits, reg: Registry, l: Ledger, id: string, tool: string, arguments: string,
                      permitted: bool, now: int)
    ensures Harmless(l, BeginToolCall(limits, reg, l, id, tool, arguments, permitted, now).ledger)
  {
    var r := BeginToolCall(limits, reg, l, id, tool, arguments, permitted, now).ledger;
    if r != l {
      assert id !in l.started && r == l.(started := r.started);
      assert forall x :: x in l.started ==> x in r.started && r.started[x] == l.started[x];
    }
  }

  lemma ProducerHarmless(limits: PolicyLimits, reg: Registry, l: Ledger, op: LedgerOp)
    requires !op.Accept?
    ensures Harmless(l, Perform(limits, reg, l, op).ledger)
  {
    match op
    case FinishTool(id, tool, sound, outcome, now) => FinishHarmless(limits, reg, l, id, tool, sound, outcome, now);
    case ModelResponse(texts, calls, now) => ResponseHarmless(limits, reg, l, texts, calls, now);
    case ModelCall(now) => ModelCallHarmless(limits, l, now);
    case BeginTool(id, tool, arguments, permitted, now) => BeginHarmless(limits, reg, l, id, tool, arguments, permitted, now);
    case Finalize => CountersHarmless(l, RecordProgress(l, FinalizeSignal));
  }

  lemma {:induction false} TextsHarmless(l: Ledger, texts: seq<string>)
    ensures var r := RecordTexts(l, texts); r == l.(seen := r.seen, progressRevision := r.progressRevision)
    decreases |texts|
  {
    if texts != [] { TextsHarmless(if texts[0] == "" then l else RecordProgress(l, AnswerText(texts[0])), texts[1..]); }
  }

  ghost predicate SourcesGrown(l: Ledger, r: Ledger) {
    && r == l.(seen := r.seen, progressRevision := r.progressRevision, sources := r.sources, generated := r.generated)
    && forall x :: x in l.sources ==>
         x in r.sources && r.sources[x].payload == l.sources[x].payload && l.sources[x].calls <= r.sources[x].calls
  }

  lemma {:induction false} AddSourcesGrow(l: Ledger, id: string, found: seq<ToolSource>)
    ensures SourcesGrown(l, AddSources(l, id, found).0)
    decreases |found|
  {
    if found != [] {
      var s := found[0];
      if s.id in l.sources {
        AddSourcesGrow(l.(sources := l.sources[s.id := l.sources[s.id].(calls := l.sources[s.id].calls + {id})]), id, found[1..]);
      } else {
        AddSourcesGrow(RecordProgress(l.(sources := l.sources[s.id := SourceEntry({id}, SourcePayload(s))],
                                         generated := l.generated + [s.id]), SourceSeen(s.id)), id, found[1..]);
      }
    }
  }

  lemma GrownKeepsValid(l: Ledger, r: Ledger, p: Payload)
    requires SourcesGrown(l, r) && ValidateEvent(l, p).None?
    ensures ValidateEvent(r, p).None?
  {
    if p.SourceAdded? {
      var c :| c in l.sources[p.sourceId].calls * l.persistedFinished;
      assert c in r.sources[p.sourceId].calls * r.persistedFinished;
    }
  }

  lemma FinishHarmless(limits: PolicyLimits, reg: Registry, l: Ledger, id: string, tool: string, sound: bool,
                       outcome: Option<ToolOutcome>, now: int)
    ensures Harmless(l, FinishToolCall(limits, reg, l, id, tool, sound, outcome, now).ledger)
  {
    var f := FinishToolCall(limits, reg, l, id, tool, sound, outcome, now);
    if f.violation.None? {
      var o := outcome.value;
      var done := ToolFinished(id, tool, (reg.title)(tool), o.result);
      var closed := RecordProgress(l.(finished := l.finished[id := done], succeeded := l.succeeded + 1), ToolFact(o.fact));
      AddSourcesGrow(closed, id, o.sources);
      forall p | ValidateEvent(l, p).None? ensures ValidateEvent(f.ledger, p).None? {
        assert ValidateEvent(closed, p).None?;
        GrownKeepsValid(closed, f.ledger, p);
      }
    } else {
      assert f.ledger == l;
    }
  }

  lemma FaultAgrees(s: System, fault: Fault, elapsedMs: nat)
    requires EvidenceInv(s.ledger) && SourceIds(s.row.events) == s.ledger.persistedOrder
    ensures var f := FailIntent(s.ledger, fault, elapsedMs);
      && EvidenceInv(f.0) && f.0.persistedOrder == s.ledger.persistedOrder
      && (f.0.validation.Passed? ==> s.ledger.validation.Passed?)
      && IntentAgrees(f.1, s.row)
  {
    match fault
    case PolicyFault(v) =>
      var noted := if v.ResultSchemaInvalid? then RecordValidationFailure(s.ledger) else s.ledger;
      OutcomeAlwaysValid(noted, Failed, StopReason(v), Some(FailureCode(v)), true, elapsedMs);
    case DeadlineFault => OutcomeAlwaysValid(s.ledger, Failed, "run_timeout", Some("run_timeout"), true, elapsedMs);
    case _ => OutcomeAlwaysValid(s.ledger, Failed, "agent_execution_failed", Some("agent_execution_failed"), true, elapsedMs);
  }

  /** The worker, holding no transaction in flight, gives up: its failure outcome agrees with the log. */
  lemma FaultKeeps(s: System, fault: Fault, elapsedMs: nat)
    requires Agreement(s) && !s.restarted && Unconfirmed(s).None?
    requires s.worker.Starting? || s.worker.Streaming? || s.worker.WantsAppend? || s.worker.Appending?
    ensures Agreement(Faulted(if s.worker.Appending? then s.(lock := Free) else s, fault, elapsedMs))
  {
    FaultAgrees(s, fault, elapsedMs);
  }

  // ----- steps that leave the stored run alone -----

  lemma ReceiveKeeps(limits: PolicyLimits, s: System, p: Payload, ms: nat)
    requires Agreement(s) && s.worker.Streaming?
    ensures Agreement(ReceiveEvent(limits, s, p, ms))
  {
    var v := ValidateEvent(s.ledger, p);
    if v.Some? {
      FaultKeeps(s, PolicyFault(v.value), ms);
    } else if !ValidRuntimePayload(p) {
      FaultKeeps(s, if p.MessageDelta? then PolicyFault(ResultSchemaInvalid) else OtherFault, ms);
    } else if p.MessageDelta? && |s.text| + |p.delta| > limits.maxAnswerChars {
      FaultKeeps(s, PolicyFault(ResultSchemaInvalid), ms);
    }
  }

  lemma YieldKeeps(limits: PolicyLimits, s: System, item: RuntimeItem, ms: nat)
    requires Agreement(s)
    ensures Agreement(Yielded(limits, s, item, ms))
  {
    if s.worker.Streaming? {
      if s.result.Some? {
        FaultKeeps(s, PolicyFault(ExecutionFailed("runtime_item_after_result")), ms);
      } else if item.EventItem? {
        ReceiveKeeps(limits, s, item.payload, ms);
      }
    }
  }

  lemma FinalizeKeeps(limits: PolicyLimits, s: System, ms: nat)
    requires Agreement(s) && s.worker.Streaming?
    ensures Agreement(Finalize(limits, s, ms))
  {
    if s.result.None? {
      FaultKeeps(s, PolicyFault(ExecutionFailed("agent_result_missing")), ms);
    } else {
      var r := PolicyLedger.ValidateResult(limits, s.ledger, s.result.value, s.text);
      ResultKeepsEvidence(limits, s.ledger, s.result.value, s.text);
      if r.violation.Some? {
        FaultAgrees(s.(ledger := r.ledger), PolicyFault(r.violation.value), ms);
      } else {
        OutcomeAlwaysValid(r.ledger, Completed, "completed", None, true, ms);
      }
    }
  }

  lemma AcceptOrder(l: Ledger, p: Payload)
    requires ValidateEvent(l, p).None?
    ensures var r := AcceptEvent(l, p);
      r.violation.None? && r.ledger.persistedOrder == l.persistedOrder + SourceOf(Some(p)) && r.ledger.validation == l.validation
  {}

  lemma ConfirmAgrees(s: System, l: Ledger)
    requires Agreement(s) && s.worker.Confirming? && EvidenceInv(l)
    requires l.persistedOrder == s.ledger.persistedOrder + SourceOf(Some(s.worker.payload))
    requires l.validation == s.ledger.validation
    ensures Agreement(s.(ledger := l, lock := Free, worker := Streaming))
  {}

  lemma ConfirmKeeps(s: System)
    requires Agreement(s)
    ensures Agreement(Confirmed(s))
  {
    if s.worker.Confirming? {
      AcceptKeepsEvidence(s.ledger, s.worker.payload);
      var r := AcceptEvent(s.ledger, s.worker.payload);
      AcceptOrder(s.ledger, s.worker.payload);
      ConfirmAgrees(s, r.ledger);
    }
  }

  lemma QuarantineKeeps(s: System)
    requires Agreement(s)
    ensures Agreement(Quarantined(s))
  {}

  lemma ProduceKeeps(limits: PolicyLimits, reg: Registry, s: System, op: LedgerOp)
    requires Agreement(s)
    ensures Agreement(Produced(limits, reg, s, op))
  {
    if !op.Accept? { ProducerHarmless(limits, reg, s.ledger, op); }
  }

  lemma LockForCancelKeeps(s: System, ms: nat)
    requires Agreement(s)
    ensures Agreement(CancelLocked(s, ms))
  {
    if !s.restarted { OutcomeAlwaysValid(s.ledger, Cancelled, "user_cancelled", None, true, ms); }
  }

  lemma AppendRollbackKeeps(s: System, ms: nat)
    requires Agreement(s)
    ensures Agreement(AppendUndone(s, ms))
  {
    if s.worker.Appending? { FaultKeeps(s, DeadlineFault, ms); }
  }

  lemma WorkerFaultsKeeps(s: System, fault: Fault, ms: nat)
    requires Agreement(s)
    ensures Agreement(WorkerFaulted(s, fault, ms))
  {
    if s.worker.Starting? || s.worker.Streaming? || s.worker.WantsAppend? { FaultKeeps(s, fault, ms); }
  }

  lemma LeaveKeeps(s: System)
    requires Agreement(s) && Interruptible(s.worker)
    ensures Agreement(s.(worker := Gone))
  {}

  lemma TakeLockKeeps(s: System)
    requires Agreement(s) && s.lock.Free? && !s.fatal
    ensures s.worker.WantsAppend? ==> Agreement(s.(lock := ByWorker, worker := Appending(s.worker.payload)))
    ensures s.worker.WantsTerminal? ==> Agreement(s.(lock := ByWorker, worker := Terminating(s.worker.intent)))
  {}

  lemma AppendLockKeeps(s: System)
    requires Agreement(s)
    ensures Agreement(AppendLocked(s))
  {
    if s.worker.WantsAppend? && s.lock.Free? {
      if s.fatal { LeaveKeeps(s); } else { TakeLockKeeps(s); }
    }
  }

  lemma TerminalLockKeeps(s: System)
    requires Agreement(s)
    ensures Agreement(TerminalLocked(s))
  {
    if s.worker.WantsTerminal? && s.lock.Free? {
      if s.fatal { LeaveKeeps(s); } else { TakeLockKeeps(s); }
    }
  }

  lemma LaunchKeeps(s: System)
    requires Agreement(s)
    ensures Agreement(Launched(s))
  {}

  lemma LeftKeeps(s: System)
    requires Agreement(s)
    ensures Agreement(Left(s))
  {
    if Interruptible(s.worker) { LeaveKeeps(s); }
  }

  lemma AbandonKeeps(s: System)
    requires Agreement(s)
    ensures Agreement(StartAbandoned(s))
  {}

  lemma TerminalRollbackKeeps(s: System)
    requires Agreement(s)
    ensures Agreement(TerminalUndone(s))
  {}

  lemma CancelRollbackKeeps(s: System)
    requires Agreement(s)
    ensures Agreement(CancelUndone(s))
  {}

  lemma FatalKeeps(s: System)
    requires Agreement(s)
    ensures Agreement(s.(fatal := true))
  {}

  // ----- steps that write the stored run -----

  /** A write that changes neither deltas nor sources leaves every pending intent in agreement with the log. */
  lemma RowSwap(s: System, row: RunRow)
    requires Agreement(s)
    requires DeltaText(row.events) == DeltaText(s.row.events) && SourceIds(row.events) == SourceIds(s.row.events)
    requires s.restarted ==> !row.status.Active()
    ensures Agreement(s.(row := row))
  {}

  lemma LockRelease(s: System)
    requires Agreement(s) && (s.worker.Terminating? || s.lock.ByCancel?)
    ensures Agreement(s.(lock := Free, worker := if s.worker.Terminating? then Gone else s.worker))
  {}

  lemma StrayRelease(s: System)
    requires Agreement(s) && !s.stray.StrayConfirm?
    ensures Agreement(s.(stray := NoStray))
  {}

  lemma StartKeeps(s: System)
    requires SysInv(s)
    ensures SysInv(Started(s))
  {
    if s.worker.Starting? && !s.fatal {
      StartStored(s.row, s.answers);
      StartAgrees(s, StartRow(s.row));
    }
  }

  lemma StartStored(row: RunRow, answers: seq<string>)
    requires Stored(row, answers)
    ensures Stored(StartRow(row), answers) && (StartRow(row).status.Active() ==> row.status.Active())
    ensures DeltaText(StartRow(row).events) == DeltaText(row.events)
    ensures SourceIds(StartRow(row).events) == SourceIds(row.events)
  {
    RowInvKept(row, Start);
    if row.status.Created? {
      var e := StartRow(row).events[|row.events|];
      SourceIdsAppend(row.events, e);
      DeltaTextAppend(row.events, e);
    }
  }

  lemma StartAgrees(s: System, row: RunRow)
    requires Agreement(s) && s.worker.Starting?
    requires DeltaText(row.events) == DeltaText(s.row.events) && SourceIds(row.events) == SourceIds(s.row.events)
    ensures Agreement(s.(row := row, worker := Streaming)) && Agreement(s.(row := row, worker := Gone))
  {}

  lemma StrayStartKeeps(s: System)
    requires SysInv(s)
    ensures SysInv(StartLands(s))
  {
    if s.strayStart {
      StartStored(s.row, s.answers);
      RowSwap(s, StartRow(s.row));
      StartIsOver(s.(row := StartRow(s.row)));
    }
  }

  lemma StartIsOver(s: System)
    requires Agreement(s)
    ensures Agreement(s.(strayStart := false))
  {}

  lemma SourcesStayDistinct(l: Ledger, p: Payload)
    requires EvidenceInv(l) && ValidateEvent(l, p).None?
    ensures Distinct(l.persistedOrder + SourceOf(Some(p)))
  {}

  lemma AppendAgrees(s: System, row: RunRow)
    requires Agreement(s) && s.worker.Appending?
    requires SourceIds(row.events) == SourceIds(s.row.events) + SourceOf(Some(s.worker.payload))
    requires DeltaText(row.events) == DeltaText(s.row.events) + Ahead(s)
    ensures Agreement(s.(row := row, worker := Confirming(s.worker.payload)))
  {}

  lemma AppendCommitKeeps(s: System, now: int)
    requires SysInv(s)
    ensures SysInv(Appended(s, now))
  {
    if s.worker.Appending? {
      if s.row.status.Running? { AppendApplied(s, now); } else { AppendRefused(s); }
    }
  }

  lemma AppendApplied(s: System, now: int)
    requires SysInv(s) && s.worker.Appending? && s.row.status.Running?
    ensures SysInv(s.(row := AppendRow(s.row, s.worker.payload, now), worker := Confirming(s.worker.payload)))
  {
    AppendableEvent(s);
    AppendKeeps(s.row, s.answers, s.worker.payload, now);
    AppendAgrees(s, AppendRow(s.row, s.worker.payload, now));
  }

  /** The event in flight is valid and adds no source twice. */
  lemma AppendableEvent(s: System)
    requires Agreement(s) && s.worker.Appending?
    ensures ValidRuntimePayload(s.worker.payload)
    ensures Distinct(SourceIds(s.row.events) + SourceOf(Some(s.worker.payload)))
  {
    SourcesStayDistinct(s.ledger, s.worker.payload);
  }

  lemma AppendRefused(s: System)
    requires Agreement(s) && s.worker.Appending?
    ensures Agreement(s.(lock := Free, worker := Gone))
  {}

  lemma TerminalCommitKeeps(s: System, now: int)
    requires SysInv(s)
    ensures SysInv(TerminalWritten(s, now))
  {
    if s.worker.Terminating? {
      IntentKeeps(s, s.worker.intent, now);
      var next := WriteIntent(s, s.worker.intent, now);
      RowSwap(s, next.row);
      LockRelease(s.(row := next.row));
      AnswersDoNotMatter(s.(row := next.row, lock := Free, worker := Gone), next.answers);
    }
  }

  lemma AnswersDoNotMatter(s: System, answers: seq<string>)
    requires Agreement(s)
    ensures Agreement(s.(answers := answers))
  {}

  lemma StrayAppendKeeps(s: System, now: int)
    requires SysInv(s) && s.stray.StrayAppend?
    ensures SysInv(StrayLands(s, now))
  {
    if s.row.status.Running? {
      SourcesStayDistinct(s.ledger, s.stray.payload);
      AppendKeeps(s.row, s.answers, s.stray.payload, now);
      StrayAppendAgrees(s, AppendRow(s.row, s.stray.payload, now));
    } else {
      StrayRelease(s);
    }
  }

  lemma StrayAppendAgrees(s: System, row: RunRow)
    requires Agreement(s) && s.stray.StrayAppend?
    requires SourceIds(row.events) == SourceIds(s.row.events) + SourceOf(Some(s.stray.payload))
    ensures Agreement(s.(row := row, stray := StrayConfirm(s.stray.payload)))
  {}

  lemma StrayConfirmKeeps(s: System)
    requires Agreement(s) && s.stray.StrayConfirm?
    ensures Agreement(s.(ledger := AcceptEvent(s.ledger, s.stray.payload).ledger, stray := NoStray))
  {
    AcceptKeepsEvidence(s.ledger, s.stray.payload);
  }

  lemma StrayTerminalKeeps(s: System, now: int)
    requires SysInv(s) && s.stray.StrayTerminal?
    ensures SysInv(StrayLands(s, now))
  {
    var next := WriteIntent(s, s.stray.intent, now);
    IntentKeeps(s, s.stray.intent, now);
    RowSwap(s, next.row);
    StrayRelease(s.(row := next.row));
    AnswersDoNotMatter(s.(row := next.row, stray := NoStray), next.answers);
  }

  lemma StrayCancelKeeps(s: System, now: int)
    requires SysInv(s) && s.stray.StrayCancel?
    ensures SysInv(StrayLands(s, now))
  {
    CancelKeeps(s, s.stray.outcome, now);
    RowSwap(s, CancelRow(s.row, s.stray.outcome, now));
    StrayRelease(s.(row := CancelRow(s.row, s.stray.outcome, now)));
  }

  lemma StrayKeeps(s: System, now: int)
    requires SysInv(s)
    ensures SysInv(StrayLands(s, now))
  {
    match s.stray
    case NoStray =>
    case StrayAppend(_) => StrayAppendKeeps(s, now);
    case StrayConfirm(_) => StrayConfirmKeeps(s);
    case StrayTerminal(_) => StrayTerminalKeeps(s, now);
    case StrayCancel(_) => StrayCancelKeeps(s, now);
  }

  lemma MeterStepKeeps(s: System, op: RowOp)
    requires SysInv(s)
    ensures SysInv(Metered(s, op))
  {
    if MeterOp(op) {
      MeterKeeps(s.row, s.answers, op);
      RowSwap(s, ApplyRow(s.row, op));
    }
  }

  lemma CancelCommitKeeps(s: System, now: int)
    requires SysInv(s)
    ensures SysInv(CancelWritten(s, now))
  {
    if s.lock.ByCancel? {
      CancelKeeps(s, s.lock.outcome, now);
      RowSwap(s, CancelRow(s.row, s.lock.outcome, now));
      LockRelease(s.(row := CancelRow(s.row, s.lock.outcome, now)));
    }
  }

  lemma DetachedKeeps(s: System, now: int)
    requires SysInv(s)
    ensures SysInv(CancelledDetached(s, now))
  {
    var o := OutcomeOf(EMPTY_LEDGER, Cancelled, "user_cancelled", None, false, 0);
    OutcomeAlwaysValid(EMPTY_LEDGER, Cancelled, "user_cancelled", None, false, 0);
    CancelKeeps(s, o, now);
    RowSwap(s, CancelRow(s.row, o, now));
  }

  lemma RestartKeeps(s: System, now: int)
    requires SysInv(s)
    ensures SysInv(Swept(s, now))
  {
    SweepKeeps(s, now);
  }

  lemma StreamEndsKeeps(limits: PolicyLimits, s: System, ms: nat)
    requires Agreement(s)
    ensures Agreement(StreamEnded(limits, s, ms))
  {
    if s.worker.Streaming? { FinalizeKeeps(limits, s, ms); }
  }

  predicate OfRunner(step: SysStep) {
    step.Yield? || step.StreamEnds? || step.WorkerFaults? || step.AppendRollsBack? || step.Confirms? || step.Produce?
  }

  lemma RunnerKeeps(limits: PolicyLimits, reg: Registry, s: System, step: SysStep)
    requires Agreement(s) && !Writes(step) && OfRunner(step)
    ensures Agreement(QuietStep(limits, reg, s, step))
  {
    match step
    case Yield(item, ms) => YieldKeeps(limits, s, item, ms);
    case StreamEnds(ms) => StreamEndsKeeps(limits, s, ms);
    case WorkerFaults(fault, ms) => WorkerFaultsKeeps(s, fault, ms);
    case AppendRollsBack(ms) => AppendRollbackKeeps(s, ms);
    case Confirms => ConfirmKeeps(s);
    case Produce(op) => ProduceKeeps(limits, reg, s, op);
  }

  lemma ControlKeeps(limits: PolicyLimits, reg: Registry, s: System, step: SysStep)
    requires Agreement(s) && !Writes(step) && !OfRunner(step)
    ensures Agreement(QuietStep(limits, reg, s, step))
  {
    match step
    case Launch => LaunchKeeps(s);
    case StartQuarantined => AbandonKeeps(s);
    case WorkerCancelled => LeftKeeps(s);
    case LockForAppend => AppendLockKeeps(s);
    case LockForTerminal => TerminalLockKeeps(s);
    case Quarantine => QuarantineKeeps(s);
    case LockForCancel(ms) => LockForCancelKeeps(s, ms);
    case OtherRunTurnsFatal => FatalKeeps(s);
    case TerminalRollsBack => TerminalRollbackKeeps(s);
    case CancelRollsBack => CancelRollbackKeeps(s);
  }

  lemma RunnerLeavesStored(limits: PolicyLimits, reg: Registry, s: System, step: SysStep)
    requires !Writes(step) && OfRunner(step)
    ensures QuietStep(limits, reg, s, step).row == s.row && QuietStep(limits, reg, s, step).answers == s.answers
  {
    match step
    case Yield(item, ms) => YieldLeavesStored(limits, s, item, ms);
    case StreamEnds(ms) => EndLeavesStored(limits, s, ms);
    case _ =>
  }

  lemma YieldLeavesStored(limits: PolicyLimits, s: System, item: RuntimeItem, ms: nat)
    ensures Yielded(limits, s, item, ms).row == s.row && Yielded(limits, s, item, ms).answers == s.answers
  {}

  lemma EndLeavesStored(limits: PolicyLimits, s: System, ms: nat)
    ensures StreamEnded(limits, s, ms).row == s.row && StreamEnded(limits, s, ms).answers == s.answers
  {}

  lemma ControlLeavesStored(limits: PolicyLimits, reg: Registry, s: System, step: SysStep)
    requires !Writes(step) && !OfRunner(step)
    ensures QuietStep(limits, reg, s, step).row == s.row && QuietStep(limits, reg, s, step).answers == s.answers
  {}

  /** Between writes the process leaves the stored run alone. */
  lemma QuietLeavesStored(limits: PolicyLimits, reg: Registry, s: System, step: SysStep)
    requires !Writes(step)
    ensures QuietStep(limits, reg, s, step).row == s.row && QuietStep(limits, reg, s, step).answers == s.answers
  {
    if OfRunner(step) { RunnerLeavesStored(limits, reg, s, step); } else { ControlLeavesStored(limits, reg, s, step); }
  }

  /** The writes of the worker's own transactions, in time or late. */
  predicate ByTheWorker(step: SysStep) {
    step.StartCommit? || step.AppendCommits? || step.TerminalCommits? || step.StrayStartCommits? || step.StrayCommits?
  }

  lemma WorkerWriteKeeps(s: System, step: SysStep)
    requires SysInv(s) && Writes(step) && ByTheWorker(step)
    ensures SysInv(WriteStep(s, step))
  {
    match step
    case StartCommit => StartKeeps(s);
    case StrayStartCommits => StrayStartKeeps(s);
    case AppendCommits(now) => AppendCommitKeeps(s, now);
    case TerminalCommits(now) => TerminalCommitKeeps(s, now);
    case StrayCommits(now) => StrayKeeps(s, now);
  }

  lemma WriteKeeps(s: System, step: SysStep)
    requires SysInv(s) && Writes(step)
    ensures SysInv(WriteStep(s, step))
  {
    if ByTheWorker(step) {
      WorkerWriteKeeps(s, step);
    } else {
      match step
      case Meter(op) => MeterStepKeeps(s, op);
      case CancelCommits(now) => CancelCommitKeeps(s, now);
      case DetachedCancel(now) => DetachedKeeps(s, now);
      case RestartAndSweep(now) => RestartKeeps(s, now);
    }
  }

  lemma StepKeeps(limits: PolicyLimits, reg: Registry, s: System, step: SysStep)
    requires SysInv(s)
    ensures SysInv(Next(limits, reg, s, step))
  {
    if Writes(step) {
      WriteKeeps(s, step);
    } else {
      if OfRunner(step) { RunnerKeeps(limits, reg, s, step); } else { ControlKeeps(limits, reg, s, step); }
      QuietLeavesStored(limits, reg, s, step);
    }
  }

  lemma {:induction false} TraceInv(limits: PolicyLimits, reg: Registry, s: System, steps: seq<SysStep>)
    requires SysInv(s)
    ensures SysInv(Trace(limits, reg, s, steps))
  {
    if steps != [] {
      TraceInv(limits, reg, s, steps[..|steps| - 1]);
      StepKeeps(limits, reg, Trace(limits, reg, s, steps[..|steps| - 1]), steps[|steps| - 1]);
    }
  }

  lemma InitialInv(thread: ThreadId, key: string, plan: string, now: int)
    ensures SysInv(Initial(thread, key, plan, now))
  {}

  // ----- main results -----

  /** The cancel that found no in-process execution. */
  predicate Detached(o: Outcome) { o.usage.None? && o.status.Cancelled? }

  /**
    On every interleaving, a terminal outcome that records usage, and every restart
    outcome, accepts exactly the run's persisted sources in log order; a detached
    cancel accepts none, so it agrees exactly when no source was persisted.
  */
  lemma AcceptedSourcesArePersisted(limits: PolicyLimits, reg: Registry, thread: ThreadId, key: string, plan: string,
                                    now: int,
                                    steps: seq<SysStep>)
    ensures var row := Trace(limits, reg, Initial(thread, key, plan, now), steps).row;
      !row.status.Active() ==>
        && row.outcome.Some?
        && (!Detached(row.outcome.value) ==> row.outcome.value.acceptedSources == SourceIds(row.events))
        && (Detached(row.outcome.value) ==>
             (row.outcome.value.acceptedSources == SourceIds(row.events) <==> SourceIds(row.events) == []))
  {
    InitialInv(thread, key, plan, now);
    TraceInv(limits, reg, Initial(thread, key, plan, now), steps);
  }

  /**
    Whatever the runner yields and whoever wins the terminal write: a completed run has
    exactly one answer, equal to its deltas in log order and to the announced message;
    any other run has none.
  */
  lemma AnswerIsTheStreamedText(limits: PolicyLimits, reg: Registry, thread: ThreadId, key: string, plan: string,
                                now: int,
                                steps: seq<SysStep>)
    ensures var s := Trace(limits, reg, Initial(thread, key, plan, now), steps);
      if s.row.status.Completed? then
        && |s.answers| == 1 && s.answers[0] == DeltaText(s.row.events)
        && |s.row.events| >= 2 && s.row.events[|s.row.events| - 2].payload == MessageCompleted(s.answers[0])
      else s.answers == []
  {
    InitialInv(thread, key, plan, now);
    TraceInv(limits, reg, Initial(thread, key, plan, now), steps);
  }

  /** The confirmation inside the append child never fails: what was committed is always accepted. */
  lemma ConfirmationNeverFails(limits: PolicyLimits, reg: Registry, thread: ThreadId, key: string, plan: string,
                               now: int,
                               steps: seq<SysStep>)
    ensures var s := Trace(limits, reg, Initial(thread, key, plan, now), steps);
      s.worker.Confirming? ==> AcceptEvent(s.ledger, s.worker.payload).violation.None?
  {
    InitialInv(thread, key, plan, now);
    TraceInv(limits, reg, Initial(thread, key, plan, now), steps);
    ConfirmingIsAccepted(Trace(limits, reg, Initial(thread, key, plan, now), steps));
  }

  lemma ConfirmingIsAccepted(s: System)
    requires SysInv(s)
    ensures s.worker.Confirming? ==> AcceptEvent(s.ledger, s.worker.payload).violation.None?
  {}

  lemma TerminalWrite(s: System, step: SysStep)
    requires !s.row.status.Active() && Writes(step)
    ensures WriteStep(s, step).row == s.row && WriteStep(s, step).answers == s.answers
  {
    if step.Meter? { TerminalRowFrozen(s.row, step.write); }
  }

  /** Once terminal, always the same: no later step of any kind changes the row or the answers. */
  lemma TerminalIsFinal(limits: PolicyLimits, reg: Registry, s: System, step: SysStep)
    requires !s.row.status.Active()
    ensures Next(limits, reg, s, step).row == s.row && Next(limits, reg, s, step).answers == s.answers
  {
    if Writes(step) { TerminalWrite(s, step); } else { QuietLeavesStored(limits, reg, s, step); }
  }
}
