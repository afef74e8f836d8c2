/**
  How a run ends (service.py): what completes it, what fails it and under which code, and what a cancel
  does, from any state the system can be in, without another caller in between.
*/
module RunOutcomes {
  import opened Common
  import opened RunRecords
  import opened PolicyLedger
  import opened Budgets
  import opened RunSystem

  // ----- runs of steps -----

  lemma {:induction false} TraceConcat(limits: PolicyLimits, reg: Registry, s: System, a: seq<SysStep>, b: seq<SysStep>)
    ensures Trace(limits, reg, s, a + b) == Trace(limits, reg, Trace(limits, reg, s, a), b)
  {
    if b == [] {
      assert a + b == a;
    } else {
      TraceConcat(limits, reg, s, a, b[..|b| - 1]);
      assert (a + b)[..|a + b| - 1] == a + b[..|b| - 1];
    }
  }

  ghost predicate Steps(limits: PolicyLimits, reg: Registry, s: System, steps: seq<SysStep>, t: System) {
    Trace(limits, reg, s, steps) == t
  }

  lemma Begin(limits: PolicyLimits, reg: Registry, s: System)
    ensures Steps(limits, reg, s, [], s)
  {}

  lemma Then(limits: PolicyLimits, reg: Registry, s: System, steps: seq<SysStep>, t: System, step: SysStep)
    requires Steps(limits, reg, s, steps, t)
    ensures Steps(limits, reg, s, steps + [step], Next(limits, reg, t, step))
  {
    assert (steps + [step])[..|steps|] == steps;
  }

  // ----- the terminal write -----

  /** The worker takes the lock and writes what it has decided. */
  function Ending(now: int): seq<SysStep> { [LockForTerminal, TerminalCommits(now)] }

  lemma EndingWrites(limits: PolicyLimits, reg: Registry, s: System, now: int)
    requires s.worker.WantsTerminal? && s.lock.Free? && !s.fatal
    ensures var t := Trace(limits, reg, s, Ending(now)); var w := WriteIntent(s, s.worker.intent, now);
      t.row == w.row && t.answers == w.answers && t.worker.Gone? && t.lock.Free? && t.fatal == s.fatal
  {
    var locked := s.(lock := ByWorker, worker := Terminating(s.worker.intent));
    assert TerminalLocked(s) == locked;
    Begin(limits, reg, s);
    Then(limits, reg, s, [], s, LockForTerminal);
    Then(limits, reg, s, [LockForTerminal], locked, TerminalCommits(now));
    assert [] + [LockForTerminal] == [LockForTerminal] && [LockForTerminal] + [TerminalCommits(now)] == Ending(now);
    assert TerminalWritten(locked, now) == WriteIntent(locked, s.worker.intent, now).(lock := Free, worker := Gone);
    IntentReadsRow(s, locked, s.worker.intent, now);
  }

  lemma IntentReadsRow(a: System, b: System, intent: Intent, now: int)
    requires a.row == b.row && a.answers == b.answers
    ensures WriteIntent(a, intent, now).row == WriteIntent(b, intent, now).row
    ensures WriteIntent(a, intent, now).answers == WriteIntent(b, intent, now).answers
  {}

  // ----- completion -----

  /** The worker streams a running run and nothing is in its way. */
  predicate AtWork(s: System) {
    s.worker.Streaming? && s.row.status.Running? && s.lock.Free? && !s.fatal
  }

  /** A completed run, in the row and in the log. */
  ghost predicate EndsCompleted(before: System, after: System, r: AgentResult) {
    && after.row.status.Completed? && after.answers == [r.text] && after.worker.Gone? && after.lock.Free?
    && after.row.outcome.Some? && after.row.outcome.value.stopReason == "completed"
    && after.row.outcome.value.failureCode.None?
    && after.row.outcome.value.resultSources == r.sources
    && after.row.outcome.value.acceptedSources == SourceIds(before.row.events)
    && |after.row.events| == |before.row.events| + 2 && before.row.events <= after.row.events
    && after.row.events[|before.row.events|].payload == MessageCompleted(r.text)
    && after.row.events[|before.row.events| + 1].payload.RunCompleted?
  }

  /** The sources the log of a run holds. */
  function PersistedSources(row: RunRow): set<string> { set id | id in SourceIds(row.events) }

  /**
    The result is acceptable: its text is what the log streamed, and its sources are what the policy wants of
    the log's.
  */
  predicate Acceptable(limits: PolicyLimits, s: System, r: AgentResult) {
    && TextFits(limits, r, DeltaText(s.row.events)) && IdsFit(r.sources)
    && SourcesFit(limits.sourcePolicy, PersistedSources(s.row), s.ledger.succeeded, r.sources)
  }

  lemma LedgerMatchesLog(s: System)
    requires SysInv(s) && s.worker.Streaming?
    ensures s.ledger.persistedSources == PersistedSources(s.row) && s.text == DeltaText(s.row.events)
    ensures !s.restarted && s.ledger.persistedOrder == SourceIds(s.row.events)
  {}

  lemma CompletionWrites(s: System, content: string, o: Outcome, now: int)
    requires s.row.status.Running? && s.answers == []
    ensures var w := WriteIntent(s, Completing(content, o), now); var n := |s.row.events|;
      && w.row.status.Completed? && w.row.outcome == Some(o) && w.answers == [content]
      && |w.row.events| == n + 2 && s.row.events <= w.row.events
      && w.row.events[n].payload == MessageCompleted(content) && w.row.events[n + 1].payload.RunCompleted?
  {}

  /** An acceptable result completes the run: the answer is its text, and its sources are recorded. */
  lemma AcceptableResultCompletes(limits: PolicyLimits, reg: Registry, s: System, r: AgentResult, ms: nat, now: int)
    requires SysInv(s) && AtWork(s) && s.result == Some(r) && Acceptable(limits, s, r)
    ensures EndsCompleted(s, Trace(limits, reg, s, [StreamEnds(ms)] + Ending(now)), r)
  {
    LedgerMatchesLog(s);
    ResultAcceptedIff(limits, s.ledger, r, s.text);
    var l := s.ledger.(validation := Passed, resultSources := r.sources);
    var o := OutcomeOf(l, Completed, "completed", None, true, ms);
    var wants := s.(ledger := l, worker := WantsTerminal(Completing(r.text, o)));
    assert StreamEnded(limits, s, ms) == wants;
    FirstThen(limits, reg, s, StreamEnds(ms), wants, Ending(now));
    EndingWrites(limits, reg, wants, now);
    CompletionWrites(wants, r.text, o, now);
  }

  lemma FirstThen(limits: PolicyLimits, reg: Registry, s: System, step: SysStep, t: System, rest: seq<SysStep>)
    requires Next(limits, reg, s, step) == t
    ensures Trace(limits, reg, s, [step] + rest) == Trace(limits, reg, t, rest)
  {
    Begin(limits, reg, s);
    Then(limits, reg, s, [], s, step);
    assert [] + [step] == [step];
    TraceConcat(limits, reg, s, [step], rest);
  }

  lemma TwoSteps(limits: PolicyLimits, reg: Registry, s: System, a: SysStep, mid: System, b: SysStep)
    requires Next(limits, reg, s, a) == mid
    ensures Trace(limits, reg, s, [a, b]) == Next(limits, reg, mid, b)
  {
    assert [a, b][..1] == [a] && [a][..0] == [];
    assert Trace(limits, reg, s, [a]) == Next(limits, reg, Trace(limits, reg, s, []), a);
  }

  // ----- failure -----

  /** A failed run, in the row, in the log and in the usage. */
  ghost predicate EndsFailed(before: System, after: System, code: string, stop: string, category: ErrorCategory) {
    && after.row.status.Failed? && after.answers == before.answers && after.worker.Gone? && after.lock.Free?
    && after.row.outcome.Some? && after.row.outcome.value.failureCode == Some(code)
    && after.row.outcome.value.stopReason == stop
    && after.row.outcome.value.acceptedSources == SourceIds(before.row.events)
    && after.row.outcome.value.resultSources == []
    && |after.row.events| == |before.row.events| + 1 && before.row.events <= after.row.events
    && after.row.events[|before.row.events|].payload.RunFailed?
    && after.row.events[|before.row.events|].payload.code == code
    && (before.row.metered ==> after.row.usage.Some? && after.row.usage.value.FinalUsage?
                               && after.row.usage.value.category == Some(category))
  }

  lemma FailureWrites(s: System, code: string, category: ErrorCategory, o: Outcome, now: int)
    requires s.row.status.Active()
    ensures var w := WriteIntent(s, Failing(code, category, o), now); var n := |s.row.events|;
      && w.row.status.Failed? && w.row.outcome == Some(o) && w.answers == s.answers
      && |w.row.events| == n + 1 && s.row.events <= w.row.events
      && w.row.events[n].payload.RunFailed? && w.row.events[n].payload.code == code
      && (s.row.metered ==> w.row.usage.Some? && w.row.usage.value.FinalUsage? && w.row.usage.value.category == Some(category))
  {}

  /** The public code, the recorded reason and the category of everything that can go wrong in a worker. */
  predicate ReportedAs(fault: Fault, code: string, stop: string, category: ErrorCategory) {
    match fault
    case DeadlineFault => code == "run_timeout" && stop == "run_timeout" && category.TimeoutError?
    case ProviderFault => code == "agent_execution_failed" && stop == "agent_execution_failed" && category.ProviderError?
    case OtherFault => code == "agent_execution_failed" && stop == "agent_execution_failed" && category.InternalError?
    case PolicyFault(v) =>
      match v
      case RunTimeout => code == "run_timeout" && stop == "run_timeout" && category.TimeoutError?
      case NoProgress => code == "no_progress" && stop == "no_progress" && category.LimitError?
      case ModelStepLimit => code == "model_step_limit" && stop == "model_step_limit" && category.LimitError?
      case ToolCallLimit => code == "tool_call_limit" && stop == "tool_call_limit" && category.LimitError?
      case RepeatedToolCall => code == "repeated_tool_call" && stop == "repeated_tool_call" && category.LimitError?
      case ToolNotAllowed => code == "tool_not_allowed" && stop == "tool_not_allowed" && category.InputError?
      case ResultSchemaInvalid => code == "result_schema_invalid" && stop == "result_schema_invalid" && category.ValidationError?
      case SourceValidationFailed =>
        code == "source_validation_failed" && stop == "source_validation_failed" && category.ValidationError?
      case ExecutionFailed(reason) =>
        code == "agent_execution_failed" && stop == reason
        && category == if |reason| >= 5 && reason[..5] == "tool_" then ToolError else InternalError
  }

  /** What a worker that has met a fault will write. */
  ghost predicate WillFail(s: System, fault: Fault) {
    && s.worker.WantsTerminal? && s.worker.intent.Failing?
    && ReportedAs(fault, s.worker.intent.code, s.worker.intent.outcome.stopReason, s.worker.intent.category)
    && s.worker.intent.outcome.failureCode == Some(s.worker.intent.code)
    && s.worker.intent.outcome.acceptedSources == s.ledger.persistedOrder
    && s.worker.intent.outcome.resultSources == s.ledger.resultSources
  }

  lemma FaultedWillFail(s: System, fault: Fault, ms: nat)
    ensures var t := Faulted(s, fault, ms);
      && WillFail(t, fault) && t.row == s.row && t.answers == s.answers && t.lock == s.lock && t.fatal == s.fatal
      && t.ledger.persistedOrder == s.ledger.persistedOrder
      && (s.ledger.resultSources == [] ==> t.ledger.resultSources == [])
  {
    match fault
    case PolicyFault(v) => PolicyReported(v);
    case _ =>
  }

  lemma PolicyReported(v: Violation)
    ensures ReportedAs(PolicyFault(v), FailureCode(v), StopReason(v), FailureCategory(v))
  {
    if v.ExecutionFailed? {
      assert "tool_" <= v.reason <==> |v.reason| >= 5 && v.reason[..5] == "tool_";
    }
  }

  lemma WillFailEnds(limits: PolicyLimits, reg: Registry, s: System, fault: Fault, now: int)
    requires WillFail(s, fault) && s.lock.Free? && !s.fatal && s.row.status.Active()
    requires s.ledger.persistedOrder == SourceIds(s.row.events) && s.ledger.resultSources == []
    ensures exists code, stop, category ::
      ReportedAs(fault, code, stop, category) && EndsFailed(s, Trace(limits, reg, s, Ending(now)), code, stop, category)
  {
    var i := s.worker.intent;
    EndingWrites(limits, reg, s, now);
    FailureWrites(s, i.code, i.category, i.outcome, now);
    assert EndsFailed(s, Trace(limits, reg, s, Ending(now)), i.code, i.outcome.stopReason, i.category);
  }

  /** The code and category of a fault are determined. */
  lemma ReportedOnce(fault: Fault, code: string, stop: string, category: ErrorCategory,
                     code': string, stop': string, category': ErrorCategory)
    requires ReportedAs(fault, code, stop, category) && ReportedAs(fault, code', stop', category')
    ensures code == code' && stop == stop' && category == category'
  {}

  /** Any fault of a worker ends its run failed, under the code that belongs to the fault. */
  ghost predicate FailsAs(before: System, after: System, fault: Fault) {
    exists code, stop, category :: ReportedAs(fault, code, stop, category) && EndsFailed(before, after, code, stop, category)
  }

  lemma FaultFails(limits: PolicyLimits, reg: Registry, s: System, fault: Fault, ms: nat, now: int)
    requires s.lock.Free? && !s.fatal && s.row.status.Active()
    requires s.ledger.persistedOrder == SourceIds(s.row.events) && s.ledger.resultSources == []
    ensures FailsAs(s, Trace(limits, reg, Faulted(s, fault, ms), Ending(now)), fault)
  {
    FaultedWillFail(s, fault, ms);
    var t := Faulted(s, fault, ms);
    WillFailEnds(limits, reg, t, fault, now);
    var after := Trace(limits, reg, t, Ending(now));
    var code, stop, category :| ReportedAs(fault, code, stop, category) && EndsFailed(t, after, code, stop, category);
    assert EndsFailed(s, after, code, stop, category);
  }

  lemma LiveLedger(s: System)
    requires SysInv(s) && (s.worker.Starting? || s.worker.Streaming? || s.worker.WantsAppend?)
    ensures s.ledger.persistedOrder == SourceIds(s.row.events) && s.ledger.resultSources == []
  {}

  /**
    Whatever goes wrong in a worker that has not yet decided, at any point, its run fails under the fault's
    own code.
  */
  lemma FaultEndsRun(limits: PolicyLimits, reg: Registry, s: System, fault: Fault, ms: nat, now: int)
    requires SysInv(s) && s.lock.Free? && !s.fatal && s.row.status.Active()
    requires s.worker.Starting? || s.worker.Streaming? || s.worker.WantsAppend?
    ensures FailsAs(s, Trace(limits, reg, s, [WorkerFaults(fault, ms)] + Ending(now)), fault)
  {
    LiveLedger(s);
    FaultFails(limits, reg, s, fault, ms, now);
    FaultStep(limits, reg, s, fault, ms);
    FirstThen(limits, reg, s, WorkerFaults(fault, ms), Faulted(s, fault, ms), Ending(now));
  }

  lemma FaultStep(limits: PolicyLimits, reg: Registry, s: System, fault: Fault, ms: nat)
    requires s.worker.Starting? || s.worker.Streaming? || s.worker.WantsAppend?
    ensures Next(limits, reg, s, WorkerFaults(fault, ms)) == Faulted(s, fault, ms)
  {
    assert WorkerFaulted(s, fault, ms) == Faulted(s, fault, ms);
  }

  /** What is wrong with the result at the end of the stream, if anything: schema before sources. */
  function ResultFault(limits: PolicyLimits, s: System): Option<Fault> {
    match s.result
    case None => Some(PolicyFault(ExecutionFailed("agent_result_missing")))
    case Some(r) =>
      if !(TextFits(limits, r, DeltaText(s.row.events)) && IdsFit(r.sources)) then Some(PolicyFault(ResultSchemaInvalid))
      else if !SourcesFit(limits.sourcePolicy, PersistedSources(s.row), s.ledger.succeeded, r.sources)
      then Some(PolicyFault(SourceValidationFailed))
      else None
  }

  /**
    The end of the stream decides the run: an acceptable result completes it; a missing one, one whose text
    or list of ids is not as it must be, and one whose sources do not meet the policy, fail it with their code.
  */
  lemma StreamEndDecides(limits: PolicyLimits, reg: Registry, s: System, ms: nat, now: int)
    requires SysInv(s) && AtWork(s)
    ensures var after, fault := Trace(limits, reg, s, [StreamEnds(ms)] + Ending(now)), ResultFault(limits, s);
      if fault.None? then s.result.Some? && EndsCompleted(s, after, s.result.value) else FailsAs(s, after, fault.value)
  {
    LedgerMatchesLog(s);
    var fault := ResultFault(limits, s);
    if fault.None? {
      AcceptableResultCompletes(limits, reg, s, s.result.value, ms, now);
    } else {
      RefusedEnds(limits, reg, s, fault.value, ms, now);
    }
  }

  lemma RefusedEnds(limits: PolicyLimits, reg: Registry, s: System, fault: Fault, ms: nat, now: int)
    requires SysInv(s) && AtWork(s) && ResultFault(limits, s) == Some(fault)
    ensures FailsAs(s, Trace(limits, reg, s, [StreamEnds(ms)] + Ending(now)), fault)
  {
    LedgerMatchesLog(s);
    LiveLedger(s);
    RefusedResult(limits, s, fault, ms);
    var t := StreamEnded(limits, s, ms);
    var held := if s.result.Some? then s.(ledger := s.ledger.(validation := Rejected)) else s;
    assert held.row == s.row && held.answers == s.answers && held.lock == s.lock && held.fatal == s.fatal;
    FaultFails(limits, reg, held, fault, ms, now);
    EndStep(limits, reg, s, ms);
    FirstThen(limits, reg, s, StreamEnds(ms), t, Ending(now));
    SameEnding(held, s, Trace(limits, reg, t, Ending(now)), fault);
  }

  lemma EndStep(limits: PolicyLimits, reg: Registry, s: System, ms: nat)
    ensures Next(limits, reg, s, StreamEnds(ms)) == StreamEnded(limits, s, ms)
  {}

  lemma RefusedResult(limits: PolicyLimits, s: System, fault: Fault, ms: nat)
    requires s.worker.Streaming? && ResultFault(limits, s) == Some(fault)
    requires s.ledger.persistedSources == PersistedSources(s.row) && s.text == DeltaText(s.row.events)
    ensures StreamEnded(limits, s, ms) ==
      Faulted(if s.result.Some? then s.(ledger := s.ledger.(validation := Rejected)) else s, fault, ms)
  {
    if s.result.Some? { ResultAcceptedIff(limits, s.ledger, s.result.value, s.text); }
  }

  lemma SameEnding(a: System, b: System, after: System, fault: Fault)
    requires FailsAs(a, after, fault) && a.row == b.row && a.answers == b.answers
    ensures FailsAs(b, after, fault)
  {
    var code, stop, category :| ReportedAs(fault, code, stop, category) && EndsFailed(a, after, code, stop, category);
    assert EndsFailed(b, after, code, stop, category);
  }

  // ----- events -----

  /** What the ledger must know of an event the runtime yields: it was announced, in its turn, and is not stored yet. */
  predicate Announced(s: System, p: Payload) {
    match p
    case MessageDelta(_) => true
    case ToolStarted(id, _, _, _) => id in s.ledger.started && s.ledger.started[id] == p && id !in s.ledger.persistedStarted
    case ToolFinished(id, _, _, _) =>
      && id in s.ledger.finished && s.ledger.finished[id] == p
      && id in s.ledger.persistedStarted && id !in s.ledger.persistedFinished
    case SourceAdded(id, _, _) =>
      && id in s.ledger.sources && s.ledger.sources[id].payload == p && id !in SourceIds(s.row.events)
      && exists call :: call in s.ledger.sources[id].calls && call in s.ledger.persistedFinished
    case _ => false
  }

  /** An announced event that meets the public contract and, for a delta, the answer limit. */
  predicate Offered(limits: PolicyLimits, s: System, p: Payload) {
    && Announced(s, p) && ValidRuntimePayload(p)
    && (p.MessageDelta? ==> |DeltaText(s.row.events)| + |p.delta| <= limits.maxAnswerChars)
  }

  /** The fault of an event that is not offered. */
  function RefusalFault(s: System, p: Payload): Fault {
    match p
    case MessageDelta(_) => PolicyFault(ResultSchemaInvalid)
    case ToolStarted(_, _, _, _) => if Announced(s, p) then OtherFault else PolicyFault(ToolNotAllowed)
    case ToolFinished(_, _, _, _) =>
      if Announced(s, p) then OtherFault else PolicyFault(ExecutionFailed("tool_lifecycle_invalid"))
    case SourceAdded(_, _, _) => if Announced(s, p) then OtherFault else PolicyFault(SourceValidationFailed)
    case _ => PolicyFault(ExecutionFailed("runtime_event_not_allowed"))
  }

  /** A runtime event on its way into the log. */
  function Storing(p: Payload, ms: nat, now: int): seq<SysStep> {
    [SysStep.Yield(EventItem(p), ms), LockForAppend, AppendCommits(now), Confirms]
  }

  /** The event is in the log, under the next number, and the worker streams on. */
  ghost predicate EventStored(before: System, after: System, p: Payload, now: int) {
    && after.row == AppendRow(before.row, p, now) && after.answers == before.answers
    && after.row.events == before.row.events + [EventRow(|before.row.events| + 1, p)]
    && AtWork(after) && after.result == before.result && after.restarted == before.restarted
    && after.text == (if p.MessageDelta? then before.text + p.delta else before.text)
    && after.ledger == AcceptEvent(before.ledger, p).ledger
  }

  lemma AnnouncedIsValid(s: System, p: Payload)
    requires SysInv(s) && s.worker.Streaming?
    ensures ValidateEvent(s.ledger, p).None? <==> Announced(s, p)
  {
    LedgerMatchesLog(s);
    if p.SourceAdded? && p.sourceId in s.ledger.sources {
      var calls, done := s.ledger.sources[p.sourceId].calls, s.ledger.persistedFinished;
      if call :| call in calls && call in done { assert call in calls * done; }
      if calls * done != {} {
        var call :| call in calls * done;
        assert call in calls && call in done;
      }
    }
  }

  lemma YieldStep(limits: PolicyLimits, reg: Registry, s: System, p: Payload, ms: nat)
    requires AtWork(s) && s.result.None? && ValidateEvent(s.ledger, p).None? && Offered(limits, s, p)
    requires s.text == DeltaText(s.row.events)
    ensures Next(limits, reg, s, SysStep.Yield(EventItem(p), ms)) ==
      s.(text := if p.MessageDelta? then s.text + p.delta else s.text, worker := WantsAppend(p))
  {
    assert Yielded(limits, s, EventItem(p), ms) == ReceiveEvent(limits, s, p, ms);
  }

  lemma LockStep(limits: PolicyLimits, reg: Registry, s: System, p: Payload)
    requires s.worker == WantsAppend(p) && s.lock.Free? && !s.fatal
    ensures Next(limits, reg, s, LockForAppend) == s.(worker := Appending(p), lock := ByWorker)
  {
    assert AppendLocked(s) == s.(worker := Appending(p), lock := ByWorker);
  }

  lemma AppendStep(limits: PolicyLimits, reg: Registry, s: System, p: Payload, now: int)
    requires s.worker == Appending(p) && s.row.status.Running?
    ensures Next(limits, reg, s, AppendCommits(now)) == s.(row := AppendRow(s.row, p, now), worker := Confirming(p))
  {
    assert Appended(s, now) == s.(row := AppendRow(s.row, p, now), worker := Confirming(p));
  }

  lemma ConfirmStep(limits: PolicyLimits, reg: Registry, s: System, p: Payload)
    requires s.worker == Confirming(p) && ValidateEvent(s.ledger, p).None?
    ensures Next(limits, reg, s, Confirms) == s.(ledger := AcceptEvent(s.ledger, p).ledger, lock := Free, worker := Streaming)
  {
    assert Confirmed(s) == s.(ledger := AcceptEvent(s.ledger, p).ledger, lock := Free, worker := Streaming);
  }

  lemma Commits(limits: PolicyLimits, reg: Registry, s: System, p: Payload, now: int)
    requires s.worker == WantsAppend(p) && s.lock.Free? && !s.fatal && s.row.status.Running?
    requires ValidateEvent(s.ledger, p).None?
    ensures Trace(limits, reg, s, [LockForAppend, AppendCommits(now), Confirms]) ==
      s.(row := AppendRow(s.row, p, now), ledger := AcceptEvent(s.ledger, p).ledger, worker := Streaming)
  {
    var locked := s.(worker := Appending(p), lock := ByWorker);
    var written := locked.(row := AppendRow(s.row, p, now), worker := Confirming(p));
    LockStep(limits, reg, s, p);
    AppendStep(limits, reg, locked, p, now);
    ConfirmStep(limits, reg, written, p);
    Begin(limits, reg, s);
    Then(limits, reg, s, [], s, LockForAppend);
    Then(limits, reg, s, [LockForAppend], locked, AppendCommits(now));
    Then(limits, reg, s, [LockForAppend, AppendCommits(now)], written, Confirms);
    assert [] + [LockForAppend] == [LockForAppend];
    assert [LockForAppend] + [AppendCommits(now)] == [LockForAppend, AppendCommits(now)];
    assert [LockForAppend, AppendCommits(now)] + [Confirms] == [LockForAppend, AppendCommits(now), Confirms];
  }

  lemma EventWritten(s: System, p: Payload, now: int)
    requires SysInv(s) && AtWork(s)
    ensures EventStored(s, s.(text := if p.MessageDelta? then s.text + p.delta else s.text, row := AppendRow(s.row, p, now),
                              ledger := AcceptEvent(s.ledger, p).ledger), p, now)
  {}

  /** Every event that is announced and within its limits gets into the log. */
  lemma OfferedEventIsStored(limits: PolicyLimits, reg: Registry, s: System, p: Payload, ms: nat, now: int)
    requires SysInv(s) && AtWork(s) && s.result.None? && Offered(limits, s, p)
    ensures EventStored(s, Trace(limits, reg, s, Storing(p, ms, now)), p, now)
  {
    AnnouncedIsValid(s, p);
    LedgerMatchesLog(s);
    var wants := s.(text := if p.MessageDelta? then s.text + p.delta else s.text, worker := WantsAppend(p));
    YieldStep(limits, reg, s, p, ms);
    YieldThenCommits(limits, reg, s, wants, p, ms, now);
    EventWritten(s, p, now);
  }

  lemma YieldThenCommits(limits: PolicyLimits, reg: Registry, s: System, wants: System, p: Payload, ms: nat, now: int)
    requires Next(limits, reg, s, SysStep.Yield(EventItem(p), ms)) == wants && ValidateEvent(wants.ledger, p).None?
    requires wants.worker == WantsAppend(p) && wants.lock.Free? && !wants.fatal && wants.row.status.Running?
    ensures Trace(limits, reg, s, Storing(p, ms, now)) ==
      wants.(row := AppendRow(wants.row, p, now), ledger := AcceptEvent(wants.ledger, p).ledger, worker := Streaming)
  {
    Commits(limits, reg, wants, p, now);
    FirstThen(limits, reg, s, SysStep.Yield(EventItem(p), ms), wants, [LockForAppend, AppendCommits(now), Confirms]);
    assert Storing(p, ms, now) == [SysStep.Yield(EventItem(p), ms)] + [LockForAppend, AppendCommits(now), Confirms];
  }

  lemma RefusedStep(limits: PolicyLimits, reg: Registry, s: System, p: Payload, ms: nat)
    requires AtWork(s) && s.result.None? && !Offered(limits, s, p)
    requires (ValidateEvent(s.ledger, p).None? <==> Announced(s, p))
    requires s.text == DeltaText(s.row.events)
    ensures Next(limits, reg, s, SysStep.Yield(EventItem(p), ms)) == Faulted(s, RefusalFault(s, p), ms)
  {
    assert Yielded(limits, s, EventItem(p), ms) == ReceiveEvent(limits, s, p, ms);
    if !Announced(s, p) { RefusedAs(s.ledger, p); }
  }

  lemma RefusedAs(l: Ledger, p: Payload)
    requires ValidateEvent(l, p).Some?
    ensures ValidateEvent(l, p) == match p
      case ToolStarted(_, _, _, _) => Some(ToolNotAllowed)
      case ToolFinished(_, _, _, _) => Some(ExecutionFailed("tool_lifecycle_invalid"))
      case SourceAdded(_, _, _) => Some(SourceValidationFailed)
      case _ => Some(ExecutionFailed("runtime_event_not_allowed"))
  {}

  /** Any other event fails the run under its own code, and nothing of it is stored. */
  lemma OtherEventFails(limits: PolicyLimits, reg: Registry, s: System, p: Payload, ms: nat, now: int)
    requires SysInv(s) && AtWork(s) && s.result.None? && !Offered(limits, s, p)
    ensures FailsAs(s, Trace(limits, reg, s, [SysStep.Yield(EventItem(p), ms)] + Ending(now)), RefusalFault(s, p))
  {
    AnnouncedIsValid(s, p);
    LedgerMatchesLog(s);
    LiveLedger(s);
    RefusedStep(limits, reg, s, p, ms);
    FaultFails(limits, reg, s, RefusalFault(s, p), ms, now);
    FirstThen(limits, reg, s, SysStep.Yield(EventItem(p), ms), Faulted(s, RefusalFault(s, p), ms), Ending(now));
  }

  // ----- cancels -----

  /** A cancelled run, in the row and in the log. */
  ghost predicate EndsCancelled(before: System, after: System) {
    && after.row.status.Cancelled? && after.answers == before.answers && after.lock.Free?
    && after.row.outcome.Some? && after.row.outcome.value.stopReason == "user_cancelled"
    && after.row.outcome.value.acceptedSources == SourceIds(before.row.events)
    && |after.row.events| == |before.row.events| + 1 && before.row.events <= after.row.events
    && after.row.events[|before.row.events|].payload.RunCancelled?
    && (before.row.metered ==> after.row.usage.Some? && after.row.usage.value.FinalUsage?
                               && after.row.usage.value.category == Some(UserCancelled))
  }

  lemma CancelWrites(row: RunRow, o: Outcome, now: int)
    requires row.status.Active()
    ensures var w, n := CancelRow(row, o, now), |row.events|;
      && w.status.Cancelled? && w.outcome == Some(o) && |w.events| == n + 1 && row.events <= w.events
      && w.events[n].payload.RunCancelled?
      && (row.metered ==> w.usage.Some? && w.usage.value.FinalUsage? && w.usage.value.category == Some(UserCancelled))
  {}

  /** A cancel that gets the lock of an active run with a worker ends it, whatever the worker is doing otherwise. */
  lemma CancelEndsRun(limits: PolicyLimits, reg: Registry, s: System, ms: nat, now: int)
    requires SysInv(s) && !s.worker.NotLaunched? && s.lock.Free? && !s.fatal && !s.restarted && s.row.status.Active()
    ensures EndsCancelled(s, Trace(limits, reg, s, [LockForCancel(ms), CancelCommits(now)]))
  {
    var o := OutcomeOf(s.ledger, Cancelled, "user_cancelled", None, true, ms);
    CancelSteps(limits, reg, s, ms, now);
    CancelWrites(s.row, o, now);
    NothingUnconfirmed(s);
  }

  lemma CancelSteps(limits: PolicyLimits, reg: Registry, s: System, ms: nat, now: int)
    requires !s.worker.NotLaunched? && s.lock.Free? && !s.fatal && !s.restarted
    ensures Trace(limits, reg, s, [LockForCancel(ms), CancelCommits(now)]) ==
      s.(row := CancelRow(s.row, OutcomeOf(s.ledger, Cancelled, "user_cancelled", None, true, ms), now))
  {
    var locked := s.(lock := ByCancel(OutcomeOf(s.ledger, Cancelled, "user_cancelled", None, true, ms)));
    assert CancelLocked(s, ms) == locked;
    TwoSteps(limits, reg, s, LockForCancel(ms), locked, CancelCommits(now));
  }

  lemma NothingUnconfirmed(s: System)
    requires SysInv(s) && s.lock.Free? && !s.fatal && !s.restarted
    ensures s.ledger.persistedOrder == SourceIds(s.row.events)
  {}
}
