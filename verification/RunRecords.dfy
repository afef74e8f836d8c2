/**
  One run as the product database stores it: its row, its event log and its
  provider attempts, with the effect each repository transaction has on them.
*/
module RunRecords {
  import opened Common
  import opened UsageMetrics

  type RunId = string
  type ThreadId = string

  datatype RunStatus = Created | Running | Completed | Failed | Cancelled {
    predicate Active() { Created? || Running? }
  }

  datatype ErrorCategory =
    ProviderError | ToolError | InputError | LimitError | ValidationError
    | TimeoutError | UserCancelled | ServiceError | InternalError

  // ----- provider attempts -----

  datatype AttemptStatus = Open | Succeeded | AttemptFailed | AttemptCancelled | Interrupted

  datatype CallKind = Direct | Decision | Finalizer

  datatype Tokens = Tokens(
    input: Option<nat>, output: Option<nat>, cached: Option<nat>, reasoning: Option<nat>, total: Option<nat>)

  const NO_TOKENS := Tokens(None, None, None, None, None)

  datatype TokenField = Input | Output | Cached | Reasoning | Sum

  function Get(tokens: Tokens, f: TokenField): Option<nat> {
    match f
    case Input => tokens.input
    case Output => tokens.output
    case Cached => tokens.cached
    case Reasoning => tokens.reasoning
    case Sum => tokens.total
  }

  datatype AttemptRow = AttemptRow(
    id: string, callIndex: nat, attemptIndex: nat, kind: CallKind, status: AttemptStatus,
    startedAt: int, completedAt: Option<int>, tokens: Tokens)

  datatype RunUsage =
    | FinalUsage(
        modelCalls: nat, retries: nat, input: UsageMetric, output: UsageMetric, cached: UsageMetric,
        reasoning: UsageMetric, total: UsageMetric, firstVisibleMs: Option<nat>,
        generationMs: Option<nat>, durationMs: nat, category: Option<ErrorCategory>)
    | UsageNotKnown
    | UsagePending

  // ----- execution outcome evidence -----

  datatype BudgetUsage = BudgetUsage(
    modelSteps: nat, toolCallsAttempted: nat, toolCallsSucceeded: nat, repeatedToolCalls: nat,
    noProgressSteps: nat, elapsedMs: nat)

  datatype Validation = Passed | Rejected | NotRun

  datatype Outcome = Outcome(
    status: RunStatus, stopReason: string, failureCode: Option<string>, usage: Option<BudgetUsage>,
    acceptedSources: seq<string>, resultSources: seq<string>, validation: Validation)

  /** The model validators of the outcome evidence. */
  ghost predicate ValidOutcome(o: Outcome) {
    && !o.status.Active()
    && Distinct(o.acceptedSources) && Distinct(o.resultSources)
    && (o.status.Failed? <==> o.failureCode.Some?)
    && (o.status.Completed? ==> o.validation.Passed? && o.usage.Some?)
    && (o.usage.None? ==> o.failureCode == Some("service_restarted") || o.status.Cancelled?)
    && (forall s :: s in o.resultSources ==> s in o.acceptedSources)
    && (!o.validation.Passed? ==> o.resultSources == [])
  }

  function OrphanOutcome(accepted: seq<string>): (o: Outcome) {
    Outcome(Failed, "service_restarted", Some("service_restarted"), None, accepted, [], NotRun)
  }

  // ----- events -----

  datatype Payload =
    | RunStarted
    | ToolStarted(callId: string, name: string, title: string, summary: Option<string>)
    | ToolFinished(callId: string, name: string, title: string, result: string)
    | MessageDelta(delta: string)
    | SourceAdded(sourceId: string, title: string, description: string)
    | MessageCompleted(content: string)
    | RunCompleted(usage: RunUsage)
    | RunFailed(code: string, usage: RunUsage)
    | RunCancelled(usage: RunUsage)
  {
    predicate Terminal() { RunCompleted? || RunFailed? || RunCancelled? }
  }

  predicate Sized(text: string, low: nat, high: nat) { low <= |text| <= high }

  /** The public payload contract of the events a runtime may emit. */
  predicate ValidRuntimePayload(p: Payload) {
    match p
    case ToolStarted(callId, name, title, summary) =>
      Sized(callId, 1, 128) && Sized(name, 1, 128) && Sized(title, 1, 200) && (summary.Some? ==> |summary.value| <= 500)
    case ToolFinished(callId, name, title, result) =>
      Sized(callId, 1, 128) && Sized(name, 1, 128) && Sized(title, 1, 200) && Sized(result, 1, 1000)
    case MessageDelta(delta) => Sized(delta, 1, 8000)
    case SourceAdded(id, title, description) => Sized(id, 1, 128) && Sized(title, 1, 200) && Sized(description, 1, 1000)
    case _ => false
  }

  datatype EventRow = EventRow(seqNo: nat, payload: Payload)

  function StatusAfter(status: RunStatus, p: Payload): RunStatus {
    match p
    case RunStarted => Running
    case RunCompleted(_) => Completed
    case RunFailed(_, _) => Failed
    case RunCancelled(_) => Cancelled
    case _ => status
  }

  /** The status a reader derives by replaying a log from its beginning. */
  function Replay(events: seq<EventRow>): RunStatus {
    if events == [] then Created
    else StatusAfter(Replay(events[..|events| - 1]), events[|events| - 1].payload)
  }

  lemma ReplayAppend(events: seq<EventRow>, e: EventRow)
    ensures Replay(events + [e]) == StatusAfter(Replay(events), e.payload)
  {
    assert (events + [e])[..|events|] == events;
  }

  /** The answer text carried by the deltas of a log, in order. */
  function DeltaText(events: seq<EventRow>): string {
    if events == [] then ""
    else
      DeltaText(events[..|events| - 1]) +
      (if events[|events| - 1].payload.MessageDelta? then events[|events| - 1].payload.delta else "")
  }

  lemma DeltaTextAppend(events: seq<EventRow>, e: EventRow)
    ensures DeltaText(events + [e]) == DeltaText(events) + (if e.payload.MessageDelta? then e.payload.delta else "")
  {
    assert (events + [e])[..|events|] == events;
  }

  /** The ids of the source.added events of a log, in order. */
  function SourceIds(events: seq<EventRow>): seq<string> {
    if events == [] then []
    else
      SourceIds(events[..|events| - 1]) +
      (if events[|events| - 1].payload.SourceAdded? then [events[|events| - 1].payload.sourceId] else [])
  }

  lemma SourceIdsAppend(events: seq<EventRow>, e: EventRow)
    ensures SourceIds(events + [e]) == SourceIds(events) + (if e.payload.SourceAdded? then [e.payload.sourceId] else [])
  {
    assert (events + [e])[..|events|] == events;
  }

  /** First occurrences only, as the orphan sweep collects source ids. */
  function Dedup(ids: seq<string>): (r: seq<string>)
    ensures Distinct(r)
    ensures forall x :: x in r <==> x in ids
  {
    if ids == [] then []
    else
      var rest := Dedup(ids[..|ids| - 1]);
      assert ids == ids[..|ids| - 1] + [ids[|ids| - 1]];
      if ids[|ids| - 1] in rest then rest else rest + [ids[|ids| - 1]]
  }

  lemma {:induction false} DedupOfDistinct(ids: seq<string>)
    requires Distinct(ids)
    ensures Dedup(ids) == ids
  {
    if ids != [] {
      var front := ids[..|ids| - 1];
      DedupOfDistinct(front);
      assert ids == front + [ids[|ids| - 1]];
    }
  }

  // ----- the run row -----

  datatype RunRow = RunRow(
    thread: ThreadId, key: string, status: RunStatus, lastSeq: nat,
    plan: Option<string>, outcome: Option<Outcome>,
    metered: bool, firstVisible: Option<int>, usage: Option<RunUsage>,
    createdAt: int, completedAt: Option<int>,
    events: seq<EventRow>, attempts: seq<AttemptRow>)

  function NewRow(thread: ThreadId, key: string, plan: string, now: int): RunRow {
    RunRow(thread, key, Created, 0, Some(plan), None, true, None, None, now, None, [], [])
  }

  function ElapsedMs(start: int, end: int): nat {
    if end <= start then 0 else end - start
  }

  function TokensOf(attempts: seq<AttemptRow>, f: TokenField): (r: seq<Option<nat>>)
    ensures |r| == |attempts| && forall i :: 0 <= i < |r| ==> r[i] == Get(attempts[i].tokens, f)
  {
    seq(|attempts|, i requires 0 <= i < |attempts| => Get(attempts[i].tokens, f))
  }

  predicate AnswerAttempt(a: AttemptRow) { a.kind.Direct? || a.kind.Finalizer? }

  /** The duration of the one answer call, if there was exactly one and it succeeded. */
  function GenerationMs(attempts: seq<AttemptRow>): Option<nat> {
    var answers := Filter(attempts, AnswerAttempt);
    if |answers| == 1 && answers[0].status.Succeeded? && answers[0].completedAt.Some?
    then Some(ElapsedMs(answers[0].startedAt, answers[0].completedAt.value))
    else None
  }

  function TerminalRunUsage(row: RunRow, completedAt: int, category: Option<ErrorCategory>): RunUsage {
    FinalUsage(
      |row.attempts|, |Filter(row.attempts, (a: AttemptRow) => a.attemptIndex > 1)|,
      TokenMetric(TokensOf(row.attempts, Input)), TokenMetric(TokensOf(row.attempts, Output)),
      TokenMetric(TokensOf(row.attempts, Cached)), TokenMetric(TokensOf(row.attempts, Reasoning)),
      TokenMetric(TokensOf(row.attempts, Sum)),
      if row.firstVisible.Some? then Some(ElapsedMs(row.createdAt, row.firstVisible.value)) else None,
      GenerationMs(row.attempts), ElapsedMs(row.createdAt, completedAt), category)
  }

  /** The usage a run view shows; a metered terminal run always has one. */
  function ViewUsage(row: RunRow): RunUsage {
    if !row.metered then UsageNotKnown
    else if row.usage.None? then UsagePending
    else row.usage.value
  }

  // ----- what each transaction does to the row -----

  function CloseOpen(attempts: seq<AttemptRow>, status: AttemptStatus, at: int): (r: seq<AttemptRow>)
    ensures |r| == |attempts|
    ensures forall i :: 0 <= i < |r| ==>
      r[i] == if attempts[i].status.Open? then attempts[i].(status := status, completedAt := Some(at)) else attempts[i]
  {
    seq(|attempts|, i requires 0 <= i < |attempts| =>
      if attempts[i].status.Open? then attempts[i].(status := status, completedAt := Some(at)) else attempts[i])
  }

  function WithTerminalUsage(row: RunRow, at: int, status: AttemptStatus, category: Option<ErrorCategory>): RunRow {
    if !row.metered then row
    else
      var closed := row.(attempts := CloseOpen(row.attempts, status, at));
      closed.(usage := Some(TerminalRunUsage(closed, at, category)))
  }

  function StartRow(row: RunRow): RunRow {
    if !row.status.Created? then row
    else row.(status := Running, lastSeq := row.lastSeq + 1,
              events := row.events + [EventRow(row.lastSeq + 1, RunStarted)])
  }

  function AppendRow(row: RunRow, p: Payload, now: int): RunRow {
    if !row.status.Running? then row
    else row.(lastSeq := row.lastSeq + 1,
              firstVisible := if p.MessageDelta? && row.firstVisible.None? then Some(now) else row.firstVisible,
              events := row.events + [EventRow(row.lastSeq + 1, p)])
  }

  function CompleteRow(row: RunRow, content: string, o: Outcome, now: int): RunRow {
    if !row.status.Running? then row
    else
      var done := WithTerminalUsage(row.(status := Completed, completedAt := Some(now), outcome := Some(o)),
                                    now, Interrupted, None);
      done.(lastSeq := row.lastSeq + 2,
            events := row.events + [EventRow(row.lastSeq + 1, MessageCompleted(content)),
                                    EventRow(row.lastSeq + 2, RunCompleted(ViewUsage(done)))])
  }

  function FailRow(row: RunRow, code: string, category: ErrorCategory, open: AttemptStatus,
                   o: Option<Outcome>, now: int): RunRow {
    if !row.status.Active() then row
    else
      var done := WithTerminalUsage(row.(status := Failed, completedAt := Some(now), outcome := o),
                                    now, open, Some(category));
      done.(lastSeq := row.lastSeq + 1,
            events := row.events + [EventRow(row.lastSeq + 1, RunFailed(code, ViewUsage(done)))])
  }

  function CancelRow(row: RunRow, o: Outcome, now: int): RunRow {
    if !row.status.Active() then row
    else
      var done := WithTerminalUsage(row.(status := Cancelled, completedAt := Some(now), outcome := Some(o)),
                                    now, AttemptCancelled, Some(UserCancelled));
      done.(lastSeq := row.lastSeq + 1,
            events := row.events + [EventRow(row.lastSeq + 1, RunCancelled(ViewUsage(done)))])
  }

  /** The restart sweep rebuilds the accepted sources of a planned run from its own log. */
  function SweepOutcome(row: RunRow): Option<Outcome> {
    if row.plan.None? then None else Some(OrphanOutcome(Dedup(SourceIds(row.events))))
  }

  function SweepRow(row: RunRow, now: int): RunRow {
    FailRow(row, "service_restarted", ServiceError, Interrupted, SweepOutcome(row), now)
  }

  predicate SameAttempt(a: AttemptRow, id: string, callIndex: nat, attemptIndex: nat) {
    a.id == id || (a.callIndex == callIndex && a.attemptIndex == attemptIndex)
  }

  /** A new open attempt; a known id or position is left alone or rejected, never duplicated. */
  function StartAttemptRow(row: RunRow, id: string, callIndex: nat, attemptIndex: nat, kind: CallKind,
                           now: int): RunRow {
    if !row.status.Running? || !row.metered
       || exists i :: 0 <= i < |row.attempts| && SameAttempt(row.attempts[i], id, callIndex, attemptIndex)
    then row
    else row.(attempts := row.attempts + [AttemptRow(id, callIndex, attemptIndex, kind, Open, now, None, NO_TOKENS)])
  }

  function AttemptIndexOf(attempts: seq<AttemptRow>, id: string): (r: Option<nat>)
    ensures r.Some? ==> r.value < |attempts| && attempts[r.value].id == id
    ensures r.None? ==> forall i :: 0 <= i < |attempts| ==> attempts[i].id != id
  {
    if attempts == [] then None
    else if attempts[0].id == id then Some(0)
    else
      var rest := AttemptIndexOf(attempts[1..], id);
      if rest.Some? then Some(rest.value + 1) else None
  }

  function FinishAttemptRow(row: RunRow, id: string, status: AttemptStatus, tokens: Tokens, now: int): RunRow {
    var at := AttemptIndexOf(row.attempts, id);
    if at.None? || !row.status.Active() || !row.attempts[at.value].status.Open? then row
    else row.(attempts := row.attempts[at.value := row.attempts[at.value].(
                status := status, completedAt := Some(now), tokens := tokens)])
  }

  function RecordUsageRow(row: RunRow, id: string, tokens: Tokens): RunRow {
    var at := AttemptIndexOf(row.attempts, id);
    if at.None? || !row.status.Active() || row.attempts[at.value].tokens != NO_TOKENS
       || !row.attempts[at.value].status.Open? then row
    else row.(attempts := row.attempts[at.value := row.attempts[at.value].(tokens := tokens)])
  }

  /** The transactions that touch one existing run. */
  datatype RowOp =
    | Start
    | Append(payload: Payload, now: int)
    | Complete(content: string, messageId: string, outcome: Outcome, now: int)
    | Fail(code: string, category: ErrorCategory, outcome: Outcome, now: int)
    | Cancel(outcome: Outcome, now: int)
    | Sweep(now: int)
    | StartAttempt(id: string, callIndex: nat, attemptIndex: nat, kind: CallKind, now: int)
    | FinishAttempt(id: string, status: AttemptStatus, tokens: Tokens, now: int)
    | RecordUsage(id: string, tokens: Tokens)

  /** What the repository checks before it opens the transaction. */
  ghost predicate WellFormed(op: RowOp) {
    match op
    case Append(p, _) => ValidRuntimePayload(p)
    case Complete(_, _, o, _) => ValidOutcome(o) && o.status.Completed?
    case Fail(code, _, o, _) => ValidOutcome(o) && o.status.Failed? && o.failureCode == Some(code)
    case Cancel(o, _) => ValidOutcome(o) && o.status.Cancelled?
    case FinishAttempt(_, status, _, _) => status.Succeeded? || status.AttemptFailed? || status.AttemptCancelled?
    case _ => true
  }

  function ApplyRow(row: RunRow, op: RowOp): RunRow {
    match op
    case Start => StartRow(row)
    case Append(p, now) => AppendRow(row, p, now)
    case Complete(content, _, o, now) => CompleteRow(row, content, o, now)
    case Fail(code, category, o, now) => FailRow(row, code, category, AttemptFailed, Some(o), now)
    case Cancel(o, now) => CancelRow(row, o, now)
    case Sweep(now) => SweepRow(row, now)
    case StartAttempt(id, c, a, kind, now) => StartAttemptRow(row, id, c, a, kind, now)
    case FinishAttempt(id, status, tokens, now) => FinishAttemptRow(row, id, status, tokens, now)
    case RecordUsage(id, tokens) => RecordUsageRow(row, id, tokens)
  }

  // ----- the row invariant -----

  ghost predicate Numbered(row: RunRow) {
    |row.events| == row.lastSeq && forall i :: 0 <= i < |row.events| ==> row.events[i].seqNo == i + 1
  }

  /** The events after a cursor, as a reader asks for them. */
  function EventsAfter(events: seq<EventRow>, after: nat): seq<EventRow> {
    Filter(events, (e: EventRow) => e.seqNo > after)
  }

  /** In a numbered log the events after a cursor are exactly the remaining suffix. */
  lemma {:induction false} EventsAfterIsSuffix(events: seq<EventRow>, after: nat, base: nat)
    requires forall i :: 0 <= i < |events| ==> events[i].seqNo == base + i + 1
    ensures EventsAfter(events, after) ==
      if after <= base then events else if after - base <= |events| then events[after - base..] else []
  {
    if events != [] {
      EventsAfterIsSuffix(events[1..], after, base + 1);
    }
  }

  /**
    A log opens with run.started or ends at once; one terminal event at most, in last place; the answer event
    exists exactly in a completed log.
  */
  ghost predicate Shaped(events: seq<EventRow>, status: RunStatus) {
    && Replay(events) == status
    && (status.Created? ==> events == [])
    && (forall i :: 0 <= i < |events| ==>
         (events[i].payload.Terminal() <==> !status.Active() && i == |events| - 1))
    && (forall i :: 0 <= i < |events| ==>
         (events[i].payload.MessageCompleted? <==> status.Completed? && i == |events| - 2))
    && (status.Completed? ==> |events| >= 2)
    && (!status.Active() ==> |events| >= 1)
    && (events != [] ==> events[0].payload.RunStarted? || events[0].payload.Terminal())
  }

  ghost predicate WellShaped(row: RunRow) { Shaped(row.events, row.status) && Contracted(row.events) }

  /** An event a runtime emitted obeys the public payload contract; the others are the repository's own. */
  ghost predicate Sound(p: Payload) {
    p.ToolStarted? || p.ToolFinished? || p.MessageDelta? || p.SourceAdded? ==> ValidRuntimePayload(p)
  }

  ghost predicate Contracted(events: seq<EventRow>) { forall i :: 0 <= i < |events| ==> Sound(events[i].payload) }

  ghost predicate Evidence(row: RunRow) {
    && (row.completedAt.Some? <==> !row.status.Active())
    && (row.outcome.Some? ==> !row.status.Active() && ValidOutcome(row.outcome.value) && row.outcome.value.status == row.status)
    && (!row.status.Active() && row.plan.Some? ==> row.outcome.Some?)
  }

  ghost predicate DistinctAttempts(attempts: seq<AttemptRow>) {
    forall i, j :: 0 <= i < j < |attempts| ==>
      !SameAttempt(attempts[i], attempts[j].id, attempts[j].callIndex, attempts[j].attemptIndex)
  }

  /** The usage in the terminal event of a log. */
  function TerminalEventUsage(events: seq<EventRow>): Option<RunUsage> {
    if events == [] then None
    else
      match events[|events| - 1].payload
      case RunCompleted(u) => Some(u)
      case RunFailed(_, u) => Some(u)
      case RunCancelled(u) => Some(u)
      case _ => None
  }

  /** Frozen usage: recomputing it from the current attempts gives what the row and the log say. */
  ghost predicate UsageFrozen(row: RunRow) {
    && (row.status.Active() ==> row.usage.None?)
    && (!row.metered ==> row.usage.None?)
    && DistinctAttempts(row.attempts)
    && (!row.status.Active() ==> TerminalEventUsage(row.events) == Some(ViewUsage(row)))
    && (!row.status.Active() && row.metered ==>
         && row.completedAt.Some?
         && (forall i :: 0 <= i < |row.attempts| ==> !row.attempts[i].status.Open?)
         && row.usage.Some? && row.usage.value.FinalUsage?
         && row.usage.value == TerminalRunUsage(row, row.completedAt.value, row.usage.value.category))
  }

  ghost predicate RowInv(row: RunRow) {
    Numbered(row) && WellShaped(row) && Evidence(row) && UsageFrozen(row)
  }

  lemma NewRowInv(thread: ThreadId, key: string, plan: string, now: int)
    ensures RowInv(NewRow(thread, key, plan, now))
  {}

  /** The totals are read from the attempts, not from a usage stored before. */
  lemma TotalsIgnoreUsage(closed: RunRow, at: int, category: Option<ErrorCategory>)
    ensures TerminalRunUsage(closed.(usage := Some(TerminalRunUsage(closed, at, category))), at, category)
      == TerminalRunUsage(closed, at, category)
  {}

  /** Closing the open attempts first makes the recorded usage a function of the final attempts. */
  lemma TerminalUsageOfClosed(row: RunRow, at: int, status: AttemptStatus, category: Option<ErrorCategory>)
    requires row.metered && !status.Open? && DistinctAttempts(row.attempts)
    ensures var done := WithTerminalUsage(row, at, status, category);
      && done.usage == Some(TerminalRunUsage(done, at, category))
      && DistinctAttempts(done.attempts)
      && forall i :: 0 <= i < |done.attempts| ==> !done.attempts[i].status.Open?
  {
    TotalsIgnoreUsage(row.(attempts := CloseOpen(row.attempts, status, at)), at, category);
    ClosedStayDistinct(row.attempts, status, at);
  }

  lemma ClosedStayDistinct(attempts: seq<AttemptRow>, status: AttemptStatus, at: int)
    requires DistinctAttempts(attempts)
    ensures DistinctAttempts(CloseOpen(attempts, status, at))
  {}

  /** One more event, other than a completed answer or its announcement, keeps the shape of a log. */
  lemma AppendShaped(events: seq<EventRow>, status: RunStatus, e: EventRow)
    requires Shaped(events, status) && status.Active()
    requires !e.payload.MessageCompleted? && !e.payload.RunCompleted?
    requires status.Created? ==> e.payload.RunStarted? || e.payload.Terminal()
    ensures Shaped(events + [e], StatusAfter(status, e.payload))
  {
    ReplayAppend(events, e);
  }

  lemma CompletionShaped(events: seq<EventRow>, a: EventRow, b: EventRow)
    requires Shaped(events, Running) && a.payload.MessageCompleted? && b.payload.RunCompleted?
    ensures Shaped(events + [a, b], Completed)
  {
    ReplayAppend(events, a);
    ReplayAppend(events + [a], b);
    assert events + [a, b] == events + [a] + [b];
    assert events != [];
  }

  lemma StartKeepsShape(row: RunRow)
    requires RowInv(row)
    ensures RowInv(StartRow(row))
  {
    if row.status.Created? { AppendShaped(row.events, row.status, StartRow(row).events[|row.events|]); }
  }

  lemma AppendKeepsShape(row: RunRow, p: Payload, now: int)
    requires RowInv(row) && ValidRuntimePayload(p)
    ensures RowInv(AppendRow(row, p, now))
  {
    if row.status.Running? { AppendShaped(row.events, row.status, AppendRow(row, p, now).events[|row.events|]); }
  }

  lemma TerminalUsageFrozen(row: RunRow, next: RunRow, closed: RunRow, at: int, open: AttemptStatus,
                            category: ErrorCategory)
    requires UsageFrozen(row) && row.status.Active() && !open.Open?
    requires closed.attempts == row.attempts && closed.metered == row.metered && closed.completedAt == Some(at)
    requires closed.usage == row.usage && !closed.status.Active()
    requires var done := WithTerminalUsage(closed, at, open, Some(category));
      next == done.(lastSeq := next.lastSeq, events := next.events) && TerminalEventUsage(next.events) == Some(ViewUsage(done))
    ensures UsageFrozen(next)
  {
    if closed.metered {
      TerminalUsageOfClosed(closed, at, open, Some(category));
    }
  }

  lemma FailKeepsShape(row: RunRow, code: string, category: ErrorCategory, open: AttemptStatus, o: Option<Outcome>,
                       now: int)
    requires RowInv(row) && !open.Open?
    requires o.Some? ==> ValidOutcome(o.value) && o.value.status.Failed?
    requires row.plan.Some? ==> o.Some?
    ensures RowInv(FailRow(row, code, category, open, o, now))
  {
    var next := FailRow(row, code, category, open, o, now);
    if row.status.Active() {
      AppendShaped(row.events, row.status, next.events[|row.events|]);
      TerminalUsageFrozen(row, next, row.(status := Failed, completedAt := Some(now), outcome := o), now, open, category);
    }
  }

  lemma CancelKeepsShape(row: RunRow, o: Outcome, now: int)
    requires RowInv(row) && ValidOutcome(o) && o.status.Cancelled?
    ensures RowInv(CancelRow(row, o, now))
  {
    var next := CancelRow(row, o, now);
    if row.status.Active() {
      AppendShaped(row.events, row.status, next.events[|row.events|]);
      TerminalUsageFrozen(row, next, row.(status := Cancelled, completedAt := Some(now), outcome := Some(o)),
                          now, AttemptCancelled, UserCancelled);
    }
  }

  lemma CompleteKeepsShape(row: RunRow, content: string, o: Outcome, now: int)
    requires RowInv(row) && ValidOutcome(o) && o.status.Completed?
    ensures RowInv(CompleteRow(row, content, o, now))
  {
    var next := CompleteRow(row, content, o, now);
    if row.status.Running? {
      var n := |row.events|;
      CompletionShaped(row.events, next.events[n], next.events[n + 1]);
      var closed := row.(status := Completed, completedAt := Some(now), outcome := Some(o));
      if row.metered { TerminalUsageOfClosed(closed, now, Interrupted, None); }
    }
  }

  lemma AttemptKeepsShape(row: RunRow, op: RowOp)
    requires RowInv(row) && WellFormed(op) && (op.StartAttempt? || op.FinishAttempt? || op.RecordUsage?)
    ensures RowInv(ApplyRow(row, op))
  {
  }

  /** Every transaction keeps the row invariant. */
  lemma RowInvKept(row: RunRow, op: RowOp)
    requires RowInv(row) && WellFormed(op)
    ensures RowInv(ApplyRow(row, op))
  {
    match op
    case Start => StartKeepsShape(row);
    case Append(p, now) => AppendKeepsShape(row, p, now);
    case Complete(content, _, o, now) => CompleteKeepsShape(row, content, o, now);
    case Fail(code, category, o, now) => FailKeepsShape(row, code, category, AttemptFailed, Some(o), now);
    case Cancel(o, now) => CancelKeepsShape(row, o, now);
    case Sweep(now) => FailKeepsShape(row, "service_restarted", ServiceError, Interrupted, SweepOutcome(row), now);
    case StartAttempt(_, _, _, _, _) => AttemptKeepsShape(row, op);
    case FinishAttempt(_, _, _, _) => AttemptKeepsShape(row, op);
    case RecordUsage(_, _) => AttemptKeepsShape(row, op);
  }

  /** A terminal run is immutable: no transaction changes its row, log, attempts or evidence. */
  lemma TerminalRowFrozen(row: RunRow, op: RowOp)
    requires !row.status.Active()
    ensures ApplyRow(row, op) == row
  {}

  /** Identity, plan and already-written events never change. */
  lemma RowGrows(row: RunRow, op: RowOp)
    ensures row.events <= ApplyRow(row, op).events
    ensures ApplyRow(row, op).thread == row.thread && ApplyRow(row, op).key == row.key
    ensures ApplyRow(row, op).plan == row.plan && ApplyRow(row, op).createdAt == row.createdAt
  {}
}
