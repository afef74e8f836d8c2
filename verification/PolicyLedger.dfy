/**
  The policy ledger of one run (execution_policy.py): budgets, tool reservations,
  tool and source lifecycle, and the evidence frozen in the outcome.
*/
module PolicyLedger {
  import opened Common
  import opened RunRecords

  datatype SourcePolicy = NoSources | RequiredIfToolUsed | Required

  datatype RawLimits = Limits(
    maxModelSteps: nat, maxToolCalls: nat, maxIdentical: nat, maxNoProgress: nat,
    deadlineAt: int, maxAnswerChars: nat, sourcePolicy: SourcePolicy)

  /** The ranges the agent definition enforces. */
  type PolicyLimits = l: RawLimits |
    1 <= l.maxModelSteps <= 32 && l.maxToolCalls <= 16 && 1 <= l.maxIdentical <= 5
    && 1 <= l.maxNoProgress <= 8 && 1 <= l.maxAnswerChars <= 32000
    witness Limits(1, 0, 1, 1, 0, 1, NoSources)

  datatype Violation =
    | RunTimeout | NoProgress | ModelStepLimit | ToolCallLimit | RepeatedToolCall | ToolNotAllowed
    | ResultSchemaInvalid | SourceValidationFailed | ExecutionFailed(reason: string)

  /** A validated call has one canonical form; equal fingerprints mean equal calls. */
  datatype Fingerprint = Fingerprint(tool: string, arguments: string)

  datatype Reservation = Reservation(tool: string, fingerprint: Fingerprint)

  /** The registered, visible tools: canonical arguments, label and input summary. */
  datatype Registry = Registry(
    visible: set<string>, canonical: (string, string) -> Option<string>,
    title: string -> string, summary: (string, string) -> string)

  /** A tool call as the model wrote it; None marks a value of the wrong type. */
  datatype RawCall = RawCall(id: Option<string>, tool: Option<string>, arguments: Option<string>)

  datatype ToolSource = ToolSource(id: string, title: string, description: string)

  datatype ToolOutcome = ToolOutcome(result: string, fact: string, sources: seq<ToolSource>)

  datatype ProgressKey = AnswerText(text: string) | ToolFact(fact: string) | SourceSeen(id: string) | FinalizeSignal

  datatype SourceEntry = SourceEntry(calls: set<string>, payload: Payload)

  datatype AgentResult = AgentResult(text: string, sources: seq<string>)

  datatype Ledger = Ledger(
    modelSteps: nat, attempted: nat, succeeded: nat, repeated: nat,
    noProgress: nat, progressRevision: nat, lastModelRevision: nat,
    lastFingerprint: Option<Fingerprint>, identical: nat, seen: set<ProgressKey>,
    reservations: map<string, Reservation>, started: map<string, Payload>, finished: map<string, Payload>,
    sources: map<string, SourceEntry>, generated: seq<string>,
    persistedStarted: set<string>, persistedFinished: set<string>,
    persistedSources: set<string>, persistedOrder: seq<string>,
    validation: Validation, resultSources: seq<string>)

  const EMPTY_LEDGER := Ledger(
    0, 0, 0, 0, 0, 0, 0, None, 0, {}, map[], map[], map[], map[], [], {}, {}, {}, [], NotRun, [])

  datatype Step = Step(ledger: Ledger, violation: Option<Violation>)

  // ----- model calls and progress -----

  function RecordProgress(l: Ledger, key: ProgressKey): Ledger {
    if key in l.seen then l
    else l.(seen := l.seen + {key}, progressRevision := l.progressRevision + 1)
  }

  function BeforeModelCall(limits: PolicyLimits, l: Ledger, now: int): Step {
    if now >= limits.deadlineAt then Step(l, Some(RunTimeout))
    else
      var stalled := l.modelSteps > 0 && l.progressRevision == l.lastModelRevision;
      var counted :=
        if l.modelSteps == 0 then l
        else l.(noProgress := if stalled then l.noProgress + 1 else 0);
      if stalled && counted.noProgress >= limits.maxNoProgress then Step(counted, Some(NoProgress))
      else
        var admitted := counted.(lastModelRevision := l.progressRevision, modelSteps := l.modelSteps + 1);
        Step(admitted, if admitted.modelSteps > limits.maxModelSteps then Some(ModelStepLimit) else None)
  }

  // ----- reservations -----

  /** The counters and pending reservations while one batch is examined. */
  datatype Batch = Batch(
    last: Option<Fingerprint>, identical: nat, repeated: nat, known: set<string>, pending: map<string, Reservation>,
    violation: Option<Violation>)

  predicate WellFormedCall(c: RawCall, known: set<string>) {
    c.id.Some? && 1 <= |c.id.value| <= 128 && c.id.value !in known && c.tool.Some? && c.arguments.Some?
  }

  function CanonicalFingerprint(reg: Registry, c: RawCall): Option<Fingerprint>
    requires c.tool.Some? && c.arguments.Some?
  {
    var canonical := (reg.canonical)(c.tool.value, c.arguments.value);
    if canonical.None? then None else Some(Fingerprint(c.tool.value, canonical.value))
  }

  /** One call of a batch; the counters of a repeated call are kept although nothing is reserved. */
  function ExamineCall(limits: PolicyLimits, reg: Registry, b: Batch, c: RawCall): Batch
    requires b.violation.None?
  {
    if !WellFormedCall(c, b.known) then b.(violation := Some(ExecutionFailed("tool_call_invalid")))
    else if c.tool.value !in reg.visible then b.(violation := Some(ToolNotAllowed))
    else
      var f := CanonicalFingerprint(reg, c);
      if f.None? then b.(violation := Some(ExecutionFailed("tool_arguments_invalid")))
      else
        var same := b.last == f;
        var next := b.(last := f, identical := if same then b.identical + 1 else 1,
                       repeated := if same then b.repeated + 1 else b.repeated,
                       known := b.known + {c.id.value});
        if next.identical > limits.maxIdentical then next.(violation := Some(RepeatedToolCall))
        else next.(pending := b.pending[c.id.value := Reservation(c.tool.value, f.value)])
  }

  function ExamineBatch(limits: PolicyLimits, reg: Registry, b: Batch, calls: seq<RawCall>): Batch
    decreases |calls|
  {
    if calls == [] || b.violation.Some? then b
    else ExamineBatch(limits, reg, ExamineCall(limits, reg, b, calls[0]), calls[1..])
  }

  function EmptyBatch(l: Ledger): Batch {
    Batch(l.lastFingerprint, l.identical, l.repeated, l.reservations.Keys + l.started.Keys, map[], None)
  }

  function ReserveToolCalls(limits: PolicyLimits, reg: Registry, l: Ledger, calls: seq<RawCall>, now: int): Step {
    if now >= limits.deadlineAt then Step(l, Some(RunTimeout))
    else if calls == [] then Step(l, None)
    else
      var counted := l.(attempted := l.attempted + |calls|);
      if counted.attempted > limits.maxToolCalls then Step(counted, Some(ToolCallLimit))
      else
        var b := ExamineBatch(limits, reg, EmptyBatch(l), calls);
        if b.violation.None? then
          Step(counted.(lastFingerprint := b.last, identical := b.identical, repeated := b.repeated,
                        reservations := l.reservations + b.pending), None)
        else if b.violation == Some(RepeatedToolCall) then
          Step(counted.(lastFingerprint := b.last, identical := b.identical, repeated := b.repeated), b.violation)
        else Step(counted, b.violation)
  }

  function RecordTexts(l: Ledger, texts: seq<string>): Ledger
    decreases |texts|
  {
    if texts == [] then l
    else RecordTexts(if texts[0] == "" then l else RecordProgress(l, AnswerText(texts[0])), texts[1..])
  }

  function AfterModelResponse(limits: PolicyLimits, reg: Registry, l: Ledger, texts: seq<string>, calls: seq<RawCall>,
                              now: int): Step {
    var noted := RecordTexts(l, texts);
    if calls == [] then Step(noted, None) else ReserveToolCalls(limits, reg, noted, calls, now)
  }

  // ----- tool lifecycle -----

  function StartedPayload(reg: Registry, id: string, tool: string, arguments: string): Payload {
    var text := (reg.summary)(tool, arguments);
    ToolStarted(id, tool, (reg.title)(tool),
                if text == "" then None else Some(if |text| > 500 then text[..500] else text))
  }

  /** `permitted` is the capability policy's present answer for the tool. */
  function BeginToolCall(limits: PolicyLimits, reg: Registry, l: Ledger, id: string, tool: string, arguments: string,
                         permitted: bool, now: int): Step {
    if now >= limits.deadlineAt then Step(l, Some(RunTimeout))
    else if id !in l.reservations || l.reservations[id].tool != tool || id in l.started then Step(l, Some(ToolNotAllowed))
    else
      var canonical := (reg.canonical)(tool, arguments);
      if canonical.None? then Step(l, Some(ExecutionFailed("tool_arguments_invalid")))
      else if Fingerprint(tool, canonical.value) != l.reservations[id].fingerprint || !permitted then Step(l, Some(ToolNotAllowed))
      else Step(l.(started := l.started[id := StartedPayload(reg, id, tool, canonical.value)]), None)
  }

  function SourcePayload(s: ToolSource): Payload { SourceAdded(s.id, s.title, s.description) }

  predicate SourceConflict(l: Ledger, s: ToolSource) {
    s.id in l.sources && l.sources[s.id].payload != SourcePayload(s)
  }

  /** Add one contributing call to each source; a new source becomes a public fact once. */
  function AddSources(l: Ledger, id: string, sources: seq<ToolSource>): (r: (Ledger, seq<Payload>))
    decreases |sources|
  {
    if sources == [] then (l, [])
    else
      var s := sources[0];
      if s.id in l.sources then
        var merged := l.(sources := l.sources[s.id := l.sources[s.id].(calls := l.sources[s.id].calls + {id})]);
        AddSources(merged, id, sources[1..])
      else
        var added := RecordProgress(
          l.(sources := l.sources[s.id := SourceEntry({id}, SourcePayload(s))], generated := l.generated + [s.id]),
          SourceSeen(s.id));
        var rest := AddSources(added, id, sources[1..]);
        (rest.0, [SourcePayload(s)] + rest.1)
  }

  datatype Finish = Finish(ledger: Ledger, events: seq<Payload>, violation: Option<Violation>)

  /** `outcome` is None when the tool message does not parse; `sound` says the message names this call. */
  function FinishToolCall(limits: PolicyLimits, reg: Registry, l: Ledger, id: string, tool: string, sound: bool,
                          outcome: Option<ToolOutcome>, now: int): Finish {
    if now >= limits.deadlineAt then Finish(l, [], Some(RunTimeout))
    else if id !in l.started || !l.started[id].ToolStarted? || l.started[id].name != tool || id in l.finished || !sound
    then Finish(l, [], Some(ExecutionFailed("tool_lifecycle_invalid")))
    else if outcome.None? then Finish(l, [], Some(ExecutionFailed("tool_execution_failed")))
    else
      var o := outcome.value;
      if exists i :: 0 <= i < |o.sources| && SourceConflict(l, o.sources[i]) then Finish(l, [], Some(SourceValidationFailed))
      else
        var done := ToolFinished(id, tool, (reg.title)(tool), o.result);
        var closed := RecordProgress(
          l.(finished := l.finished[id := done], succeeded := l.succeeded + 1), ToolFact(o.fact));
        var added := AddSources(closed, id, o.sources);
        Finish(added.0, [done] + added.1, None)
  }

  // ----- runtime events against the durable log -----

  function ValidateEvent(l: Ledger, p: Payload): Option<Violation> {
    match p
    case MessageDelta(_) => None
    case ToolStarted(id, _, _, _) =>
      if id in l.started && l.started[id] == p && id !in l.persistedStarted then None else Some(ToolNotAllowed)
    case ToolFinished(id, _, _, _) =>
      if id in l.finished && l.finished[id] == p && id in l.persistedStarted && id !in l.persistedFinished then None
      else Some(ExecutionFailed("tool_lifecycle_invalid"))
    case SourceAdded(s, _, _) =>
      if s in l.sources && l.sources[s].payload == p && l.sources[s].calls * l.persistedFinished != {} && s !in l.persistedSources
      then None else Some(SourceValidationFailed)
    case _ => Some(ExecutionFailed("runtime_event_not_allowed"))
  }

  function AcceptEvent(l: Ledger, p: Payload): Step {
    var v := ValidateEvent(l, p);
    if v.Some? then Step(l, v)
    else
      match p
      case ToolStarted(id, _, _, _) => Step(l.(persistedStarted := l.persistedStarted + {id}), None)
      case ToolFinished(id, _, _, _) => Step(l.(persistedFinished := l.persistedFinished + {id}), None)
      case SourceAdded(s, _, _) =>
        Step(l.(persistedSources := l.persistedSources + {s}, persistedOrder := l.persistedOrder + [s]), None)
      case _ => Step(l, None)
  }

  // ----- result and outcome -----

  /** The schema of a result object, before any policy check. */
  predicate ResultWellFormed(r: AgentResult) {
    && 1 <= |r.text| <= 32000 && !Blank(r.text)
    && Distinct(r.sources)
    && forall i :: 0 <= i < |r.sources| ==> 1 <= |r.sources[i]| <= 128
  }

  function ResultViolation(limits: PolicyLimits, l: Ledger, r: AgentResult, runtimeText: string): Option<Violation> {
    if !ResultWellFormed(r) || |r.text| > limits.maxAnswerChars || runtimeText != r.text then Some(ResultSchemaInvalid)
    else if (exists s :: s in r.sources && s !in l.persistedSources)
         || (l.succeeded == 0 && r.sources != [])
         || (limits.sourcePolicy.Required? && r.sources == [])
         || (limits.sourcePolicy.RequiredIfToolUsed? && l.succeeded > 0 && r.sources == [])
    then Some(SourceValidationFailed)
    else None
  }

  function ValidateResult(limits: PolicyLimits, l: Ledger, r: AgentResult, runtimeText: string): Step {
    var v := ResultViolation(limits, l, r, runtimeText);
    if v.Some? then Step(l.(validation := Rejected), v)
    else Step(l.(validation := Passed, resultSources := r.sources), None)
  }

  /** The text of a result: within both limits, not blank, and what the runtime streamed. */
  predicate TextFits(limits: PolicyLimits, r: AgentResult, runtimeText: string) {
    1 <= |r.text| <= 32000 && !Blank(r.text) && |r.text| <= limits.maxAnswerChars && r.text == runtimeText
  }

  /** The source ids of a result as a list: each named once, none empty or too long. */
  predicate IdsFit(ids: seq<string>) {
    && (forall i, j :: 0 <= i < j < |ids| ==> ids[i] != ids[j])
    && (forall i :: 0 <= i < |ids| ==> 1 <= |ids[i]| <= 128)
  }

  /** What the source policy demands: persisted sources only, none without a succeeded tool, and some where required. */
  predicate SourcesFit(policy: SourcePolicy, persisted: set<string>, succeeded: nat, ids: seq<string>) {
    && (forall i :: 0 <= i < |ids| ==> ids[i] in persisted)
    && (succeeded == 0 ==> ids == [])
    && (policy.Required? ==> ids != [])
    && (policy.RequiredIfToolUsed? && succeeded > 0 ==> ids != [])
  }

  /**
    A result is accepted exactly if its text, its list of ids and the source policy are all met; the
    first two fail as a schema error, the last as a source error, and the verdict is frozen with it.
  */
  lemma ResultAcceptedIff(limits: PolicyLimits, l: Ledger, r: AgentResult, runtimeText: string)
    ensures var v := ValidateResult(limits, l, r, runtimeText);
      var schema := TextFits(limits, r, runtimeText) && IdsFit(r.sources);
      var sources := SourcesFit(limits.sourcePolicy, l.persistedSources, l.succeeded, r.sources);
      && (v.violation.None? <==> schema && sources)
      && (v.violation == Some(ResultSchemaInvalid) <==> !schema)
      && (v.violation == Some(SourceValidationFailed) <==> schema && !sources)
      && (v.violation.None? ==> v.ledger == l.(validation := Passed, resultSources := r.sources))
      && (v.violation.Some? ==> v.ledger == l.(validation := Rejected))
  {
    assert (exists s :: s in r.sources && s !in l.persistedSources) <==>
      !(forall i :: 0 <= i < |r.sources| ==> r.sources[i] in l.persistedSources);
  }

  function RecordValidationFailure(l: Ledger): Ledger { l.(validation := Rejected, resultSources := []) }

  function OutcomeOf(l: Ledger, status: RunStatus, stopReason: string, code: Option<string>, usageKnown: bool,
                     elapsedMs: nat): Outcome {
    Outcome(status, stopReason, code,
            if usageKnown
            then Some(BudgetUsage(l.modelSteps, l.attempted, l.succeeded, l.repeated, l.noProgress, elapsedMs))
            else None,
            l.persistedOrder, l.resultSources, l.validation)
  }

  /** What the persisted half of the ledger always satisfies. */
  ghost predicate EvidenceInv(l: Ledger) {
    && Distinct(l.persistedOrder)
    && (forall s :: s in l.persistedOrder <==> s in l.persistedSources)
    && (forall s :: s in l.resultSources ==> s in l.persistedSources)
    && Distinct(l.resultSources)
    && (!l.validation.Passed? ==> l.resultSources == [])
  }

  lemma AcceptKeepsEvidence(l: Ledger, p: Payload)
    requires EvidenceInv(l)
    ensures EvidenceInv(AcceptEvent(l, p).ledger)
  {}

  lemma ResultKeepsEvidence(limits: PolicyLimits, l: Ledger, r: AgentResult, runtimeText: string)
    requires EvidenceInv(l) && !l.validation.Passed?
    ensures EvidenceInv(ValidateResult(limits, l, r, runtimeText).ledger)
  {}

  /** The outcome a ledger produces is never refused by the evidence validators. */
  lemma OutcomeAlwaysValid(l: Ledger, status: RunStatus, stopReason: string, code: Option<string>, usageKnown: bool,
                           elapsedMs: nat)
    requires EvidenceInv(l)
    requires !status.Active() && (status.Failed? <==> code.Some?) && (status.Completed? ==> l.validation.Passed?)
    requires !usageKnown ==> status.Cancelled?
    ensures ValidOutcome(OutcomeOf(l, status, stopReason, code, usageKnown, elapsedMs))
  {}

  // ----- how a violation is reported -----

  function FailureCode(v: Violation): string {
    match v
    case RunTimeout => "run_timeout"
    case NoProgress => "no_progress"
    case ModelStepLimit => "model_step_limit"
    case ToolCallLimit => "tool_call_limit"
    case RepeatedToolCall => "repeated_tool_call"
    case ToolNotAllowed => "tool_not_allowed"
    case ResultSchemaInvalid => "result_schema_invalid"
    case SourceValidationFailed => "source_validation_failed"
    case ExecutionFailed(_) => "agent_execution_failed"
  }

  function StopReason(v: Violation): string {
    if v.ExecutionFailed? then v.reason else FailureCode(v)
  }

  function FailureCategory(v: Violation): ErrorCategory {
    match v
    case RunTimeout => TimeoutError
    case ToolNotAllowed => InputError
    case ResultSchemaInvalid => ValidationError
    case SourceValidationFailed => ValidationError
    case ExecutionFailed(reason) => if "tool_" <= reason then ToolError else InternalError
    case _ => LimitError
  }
}
