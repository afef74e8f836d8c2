/**
  What the policy ledger keeps of a run, in terms of the operations alone: the progress seen, the sources found,
  and the counts its outcome reports (execution_policy.py).
*/
module PolicyRecord {
  import opened Common
  import opened RunRecords
  import opened PolicyLedger
  import opened Budgets

  /** The outcome of an accepted finish names the source. */
  predicate NamedIn(sources: seq<ToolSource>, id: string) { exists j :: 0 <= j < |sources| && sources[j].id == id }

  predicate FindsSource(op: LedgerOp, id: string) {
    op.FinishTool? && op.outcome.Some? && NamedIn(op.outcome.value.sources, id)
  }

  /** What an accepted operation shows as progress. */
  predicate ShowsProgress(op: LedgerOp, key: ProgressKey) {
    match key
    case AnswerText(text) => text != "" && op.ModelResponse? && text in op.texts
    case ToolFact(fact) => op.FinishTool? && op.outcome.Some? && op.outcome.value.fact == fact
    case SourceSeen(id) => FindsSource(op, id)
    case FinalizeSignal => op.Finalize?
  }

  ghost predicate SeenBefore(ops: seq<LedgerOp>, key: ProgressKey) {
    exists i :: 0 <= i < |ops| && ShowsProgress(ops[i], key)
  }

  ghost predicate FoundBy(ops: seq<LedgerOp>, id: string, call: string) {
    exists i :: 0 <= i < |ops| && FindsSource(ops[i], id) && ops[i].id == call
  }

  ghost predicate FoundBefore(ops: seq<LedgerOp>, id: string) { exists i :: 0 <= i < |ops| && FindsSource(ops[i], id) }

  /**
    Progress is exactly what the operations showed; sources are exactly those found, each by the calls that
    found it.
  */
  ghost predicate RecordsProgress(l: Ledger, ops: seq<LedgerOp>) {
    forall key :: key in l.seen <==> SeenBefore(ops, key)
  }

  ghost predicate RecordsSources(l: Ledger, ops: seq<LedgerOp>) {
    && (forall id :: id in l.sources <==> FoundBefore(ops, id))
    && (forall id, call :: FoundBy(ops, id, call) <==> (id in l.sources && call in l.sources[id].calls))
  }

  /** Every source in the ledger counts as progress already. */
  ghost predicate SourcesSeen(l: Ledger) { forall id :: id in l.sources ==> SourceSeen(id) in l.seen }

  lemma SeenAppend(ops: seq<LedgerOp>, op: LedgerOp, key: ProgressKey)
    ensures SeenBefore(ops + [op], key) <==> SeenBefore(ops, key) || ShowsProgress(op, key)
  {
    if i :| 0 <= i < |ops| && ShowsProgress(ops[i], key) { assert (ops + [op])[i] == ops[i]; }
    assert (ops + [op])[|ops|] == op;
  }

  lemma FoundAppend(ops: seq<LedgerOp>, op: LedgerOp, id: string, call: string)
    ensures FoundBefore(ops + [op], id) <==> FoundBefore(ops, id) || FindsSource(op, id)
    ensures FoundBy(ops + [op], id, call) <==> FoundBy(ops, id, call) || (FindsSource(op, id) && op.id == call)
  {
    var more := ops + [op];
    if i :| 0 <= i < |ops| && FindsSource(ops[i], id) { assert more[i] == ops[i]; }
    if i :| 0 <= i < |ops| && FindsSource(ops[i], id) && ops[i].id == call { assert more[i] == ops[i]; }
    assert more[|ops|] == op;
  }

  lemma {:induction false} TextsSeen(l: Ledger, texts: seq<string>)
    ensures var r := RecordTexts(l, texts);
      && r.sources == l.sources
      && forall key :: key in r.seen <==> key in l.seen || (key.AnswerText? && key.text != "" && key.text in texts)
    decreases |texts|
  {
    if texts != [] {
      TextsSeen(if texts[0] == "" then l else RecordProgress(l, AnswerText(texts[0])), texts[1..]);
      assert forall t :: t in texts <==> t == texts[0] || t in texts[1..];
    }
  }

  lemma NamedSplit(sources: seq<ToolSource>, id: string)
    requires sources != []
    ensures NamedIn(sources, id) <==> sources[0].id == id || NamedIn(sources[1..], id)
  {
    if j :| 0 <= j < |sources| && sources[j].id == id { if j > 0 { assert sources[1..][j - 1].id == id; } }
    if j :| 0 <= j < |sources| - 1 && sources[1..][j].id == id { assert sources[j + 1].id == id; }
  }

  /** The sources one finish adds: the named ones, each with this call beside the earlier ones. */
  ghost predicate SourcesOf(l: Ledger, r: Ledger, call: string, sources: seq<ToolSource>) {
    && (forall id :: id in r.sources <==> id in l.sources || NamedIn(sources, id))
    && (forall id, c :: (id in r.sources && c in r.sources[id].calls) <==>
         (id in l.sources && c in l.sources[id].calls) || (NamedIn(sources, id) && c == call))
    && (forall key :: key in r.seen <==> key in l.seen || (key.SourceSeen? && NamedIn(sources, key.id)))
  }

  /** The ledger after the first source of a finish. */
  function WithSource(l: Ledger, call: string, s: ToolSource): Ledger {
    if s.id in l.sources
    then l.(sources := l.sources[s.id := l.sources[s.id].(calls := l.sources[s.id].calls + {call})])
    else RecordProgress(
      l.(sources := l.sources[s.id := SourceEntry({call}, SourcePayload(s))], generated := l.generated + [s.id]), SourceSeen(s.id))
  }

  lemma OneSourceOf(l: Ledger, call: string, s: ToolSource)
    requires SourcesSeen(l)
    ensures SourcesOf(l, WithSource(l, call, s), call, [s]) && SourcesSeen(WithSource(l, call, s))
  {
    assert forall id :: NamedIn([s], id) <==> s.id == id by {
      forall id ensures NamedIn([s], id) <==> s.id == id { if s.id == id { assert [s][0].id == id; } }
    }
  }

  lemma {:induction false} AddedSources(l: Ledger, call: string, sources: seq<ToolSource>)
    requires SourcesSeen(l)
    ensures SourcesOf(l, AddSources(l, call, sources).0, call, sources) && SourcesSeen(AddSources(l, call, sources).0)
    decreases |sources|
  {
    if sources != [] {
      var next := WithSource(l, call, sources[0]);
      OneSourceOf(l, call, sources[0]);
      AddedSources(next, call, sources[1..]);
      forall id ensures NamedIn(sources, id) <==> NamedIn([sources[0]], id) || NamedIn(sources[1..], id) {
        NamedSplit(sources, id);
        NamedSplit([sources[0]], id);
      }
      SourcesJoin(l, next, AddSources(next, call, sources[1..]).0, call, [sources[0]], sources[1..], sources);
    }
  }

  lemma SourcesJoin(l: Ledger, m: Ledger, r: Ledger, call: string, a: seq<ToolSource>, b: seq<ToolSource>,
                    all: seq<ToolSource>)
    requires SourcesOf(l, m, call, a) && SourcesOf(m, r, call, b)
    requires forall id :: NamedIn(all, id) <==> NamedIn(a, id) || NamedIn(b, id)
    ensures SourcesOf(l, r, call, all)
  {}

  // ----- every operation -----

  ghost predicate Records(l: Ledger, ops: seq<LedgerOp>) {
    RecordsProgress(l, ops) && RecordsSources(l, ops) && SourcesSeen(l)
  }

  lemma FinishRecords(limits: PolicyLimits, reg: Registry, l: Ledger, op: LedgerOp)
    requires SourcesSeen(l) && op.FinishTool? && op.outcome.Some?
    ensures var o := op.outcome.value;
      var r := AddSources(ClosedCall(reg, l, op.id, op.tool, o), op.id, o.sources).0;
      && SourcesSeen(r) && SourcesOf(l.(seen := l.seen + {ToolFact(o.fact)}), r, op.id, o.sources)
  {
    var o := op.outcome.value;
    var closed := ClosedCall(reg, l, op.id, op.tool, o);
    assert closed.sources == l.sources && closed.seen == l.seen + {ToolFact(o.fact)};
    AddedSources(closed, op.id, o.sources);
  }

  lemma FoundNow(l: Ledger, r: Ledger, op: LedgerOp)
    requires op.FinishTool? && op.outcome.Some?
    requires SourcesOf(l.(seen := l.seen + {ToolFact(op.outcome.value.fact)}), r, op.id, op.outcome.value.sources)
    ensures forall id :: id in r.sources <==> id in l.sources || FindsSource(op, id)
    ensures forall id, c :: (id in r.sources && c in r.sources[id].calls) <==>
              (id in l.sources && c in l.sources[id].calls) || (FindsSource(op, id) && c == op.id)
    ensures forall key :: key in r.seen <==> key in l.seen || ShowsProgress(op, key)
  {}

  lemma OtherRecords(limits: PolicyLimits, reg: Registry, l: Ledger, op: LedgerOp)
    requires !op.FinishTool? && Perform(limits, reg, l, op).violation.None?
    ensures var r := Perform(limits, reg, l, op).ledger;
      r.sources == l.sources && forall key :: key in r.seen <==> key in l.seen || ShowsProgress(op, key)
  {
    match op
    case ModelResponse(texts, calls, now) =>
      TextsSeen(l, texts);
      ReserveTouches(limits, reg, RecordTexts(l, texts), calls, now);
    case BeginTool(id, tool, arguments, permitted, now) => BeginChanges(limits, reg, l, id, tool, arguments, permitted, now);
    case Accept(p) => AcceptChanges(l, p);
    case _ =>
  }

  lemma RecordsStep(limits: PolicyLimits, reg: Registry, l: Ledger, ops: seq<LedgerOp>, op: LedgerOp)
    requires Records(l, ops) && Perform(limits, reg, l, op).violation.None?
    ensures Records(Perform(limits, reg, l, op).ledger, ops + [op])
  {
    var r := Perform(limits, reg, l, op).ledger;
    if op.FinishTool? {
      FinishIs(limits, reg, l, op.id, op.tool, op.sound, op.outcome, op.now);
      FinishRecords(limits, reg, l, op);
      FoundNow(l, r, op);
    } else {
      OtherRecords(limits, reg, l, op);
    }
    forall key ensures key in r.seen <==> SeenBefore(ops + [op], key) { SeenAppend(ops, op, key); }
    forall id ensures id in r.sources <==> FoundBefore(ops + [op], id) { FoundAppend(ops, op, id, ""); }
    forall id, call ensures FoundBy(ops + [op], id, call) <==> (id in r.sources && call in r.sources[id].calls) {
      FoundAppend(ops, op, id, call);
    }
  }

  lemma RecordsNothing()
    ensures Records(EMPTY_LEDGER, [])
  {}

  /**
    On every history without a refusal: what counts as progress is exactly what its operations showed, and the
    sources are exactly those its finished calls found, each with exactly the calls that found it.
  */
  lemma {:induction false} LedgerRecords(limits: PolicyLimits, reg: Registry, ops: seq<LedgerOp>)
    ensures var h := Play(limits, reg, ops); h.Some? ==> Records(h.value.ledger, ops)
  {
    if ops == [] {
      RecordsNothing();
    } else if Play(limits, reg, ops).Some? {
      var front, op := ops[..|ops| - 1], ops[|ops| - 1];
      LedgerRecords(limits, reg, front);
      RecordsStep(limits, reg, Play(limits, reg, front).value.ledger, front, op);
      assert front + [op] == ops;
    }
  }

  // ----- the counts of an outcome -----

  /** How often a call repeats the one before it. */
  ghost function Repeats(s: seq<Fingerprint>): nat { |set k | 1 <= k < |s| && RepeatsAt(s, k)| }

  predicate RepeatsAt(s: seq<Fingerprint>, k: int) { 1 <= k < |s| && s[k] == s[k - 1] }

  lemma RepeatsAppend(s: seq<Fingerprint>, f: Fingerprint)
    ensures Repeats(s + [f]) == Repeats(s) + if s != [] && s[|s| - 1] == f then 1 else 0
  {
    var t := s + [f];
    var before, now := (set k | 1 <= k < |s| && RepeatsAt(s, k)), (set k | 1 <= k < |t| && RepeatsAt(t, k));
    forall k | 1 <= k < |s| ensures RepeatsAt(s, k) <==> RepeatsAt(t, k) { assert t[k] == s[k] && t[k - 1] == s[k - 1]; }
    if s != [] && s[|s| - 1] == f {
      assert t[|s|] == f && t[|s| - 1] == f && RepeatsAt(t, |s|);
      assert now == before + {|s|};
    } else {
      assert now == before;
    }
  }

  lemma {:induction false} BatchRepeats(limits: PolicyLimits, reg: Registry, b: Batch, calls: seq<RawCall>,
                                        reserved: seq<Fingerprint>)
    requires BatchTracks(limits, b, reserved) && b.violation.None? && b.repeated == Repeats(reserved)
    requires ExamineBatch(limits, reg, b, calls).violation.None?
    ensures ExamineBatch(limits, reg, b, calls).repeated == Repeats(reserved + Fingerprints(reg, calls))
    decreases |calls|
  {
    if calls == [] {
      assert reserved + Fingerprints(reg, calls) == reserved;
    } else {
      var next := ExamineCall(limits, reg, b, calls[0]);
      assert next.violation.None? by { FirstAccepted(limits, reg, b, calls); }
      CallKeeps(limits, reg, b, calls[0], reserved);
      var f := CanonicalFingerprint(reg, calls[0]).value;
      RepeatsAppend(reserved, f);
      RepeatedCall(limits, reg, b, calls[0]);
      BatchRepeats(limits, reg, next, calls[1..], reserved + [f]);
      assert Fingerprints(reg, calls) == [f] + Fingerprints(reg, calls[1..]);
      assert reserved + [f] + Fingerprints(reg, calls[1..]) == reserved + Fingerprints(reg, calls);
    }
  }

  lemma FirstAccepted(limits: PolicyLimits, reg: Registry, b: Batch, calls: seq<RawCall>)
    requires calls != [] && b.violation.None? && ExamineBatch(limits, reg, b, calls).violation.None?
    ensures ExamineCall(limits, reg, b, calls[0]).violation.None?
  {}

  lemma RepeatedCall(limits: PolicyLimits, reg: Registry, b: Batch, c: RawCall)
    requires b.violation.None? && ExamineCall(limits, reg, b, c).violation.None?
    ensures c.tool.Some? && c.arguments.Some?
    ensures ExamineCall(limits, reg, b, c).repeated == b.repeated + if b.last == CanonicalFingerprint(reg, c) then 1 else 0
  {}

  ghost predicate Counted(h: History) {
    h.ledger.succeeded == |h.ledger.finished| && h.ledger.repeated == Repeats(h.reserved)
  }

  lemma CountedStep(limits: PolicyLimits, reg: Registry, h: History, op: LedgerOp)
    requires Counted(h) && ReservationInv(limits, h) && h.ledger.progressRevision == |h.ledger.seen|
    requires Perform(limits, reg, h.ledger, op).violation.None?
    ensures Counted(Record(limits, reg, h, op))
  {
    match op
    case ModelResponse(texts, calls, now) => ResponseCounted(limits, reg, h, texts, calls, now);
    case FinishTool(id, tool, sound, outcome, now) => FinishCounted(limits, reg, h.ledger, id, tool, sound, outcome, now);
    case _ => QuietCounted(limits, reg, h, op);
  }

  /** The operations that neither reserve nor finish a call. */
  lemma QuietCounted(limits: PolicyLimits, reg: Registry, h: History, op: LedgerOp)
    requires Counted(h) && (op.ModelCall? || op.Finalize? || op.BeginTool? || op.Accept?)
    requires Perform(limits, reg, h.ledger, op).violation.None?
    ensures Counted(Record(limits, reg, h, op))
  {
    match op
    case BeginTool(id, tool, arguments, permitted, now) => BeginChanges(limits, reg, h.ledger, id, tool, arguments, permitted, now);
    case Accept(p) => AcceptChanges(h.ledger, p);
    case _ =>
  }

  lemma FinishCounted(limits: PolicyLimits, reg: Registry, l: Ledger, id: string, tool: string, sound: bool,
                      outcome: Option<ToolOutcome>, now: int)
    requires l.progressRevision == |l.seen|
    requires FinishToolCall(limits, reg, l, id, tool, sound, outcome, now).violation.None?
    ensures var r := FinishToolCall(limits, reg, l, id, tool, sound, outcome, now).ledger;
      r.succeeded == l.succeeded + 1 && |r.finished| == |l.finished| + 1 && r.repeated == l.repeated
  {
    FinishIs(limits, reg, l, id, tool, sound, outcome, now);
    SourcesGrow(ClosedCall(reg, l, id, tool, outcome.value), id, outcome.value.sources);
  }

  lemma ResponseCounted(limits: PolicyLimits, reg: Registry, h: History, texts: seq<string>, calls: seq<RawCall>,
                        now: int)
    requires Counted(h) && ReservationInv(limits, h) && h.ledger.progressRevision == |h.ledger.seen|
    requires AfterModelResponse(limits, reg, h.ledger, texts, calls, now).violation.None?
    ensures Counted(Record(limits, reg, h, ModelResponse(texts, calls, now)))
  {
    TextsGrow(h.ledger, texts);
    var l := RecordTexts(h.ledger, texts);
    if calls == [] {
      assert h.reserved + Fingerprints(reg, calls) == h.reserved;
    } else {
      ReserveTouches(limits, reg, l, calls, now);
      ReservedRepeats(limits, reg, l, calls, now);
      BatchRepeats(limits, reg, EmptyBatch(l), calls, h.reserved);
    }
  }

  lemma ReservedRepeats(limits: PolicyLimits, reg: Registry, l: Ledger, calls: seq<RawCall>, now: int)
    requires calls != [] && ReserveToolCalls(limits, reg, l, calls, now).violation.None?
    ensures ExamineBatch(limits, reg, EmptyBatch(l), calls).violation.None?
    ensures ReserveToolCalls(limits, reg, l, calls, now).ledger.repeated == ExamineBatch(limits, reg, EmptyBatch(l), calls).repeated
  {}

  lemma NothingRepeats(s: seq<Fingerprint>)
    requires s == []
    ensures Repeats(s) == 0
  {
    assert (set k | 1 <= k < |s| && RepeatsAt(s, k)) == {};
  }

  lemma {:induction false} PlayCounted(limits: PolicyLimits, reg: Registry, ops: seq<LedgerOp>)
    ensures var h := Play(limits, reg, ops); h.Some? ==> Counted(h.value)
  {
    if ops == [] {
      NothingRepeats([]);
    } else if Play(limits, reg, ops).Some? {
      var front, op := ops[..|ops| - 1], ops[|ops| - 1];
      PlayCounted(limits, reg, front);
      PlayInv(limits, reg, front);
      CountedStep(limits, reg, Play(limits, reg, front).value, op);
    }
  }

  /**
    The usage an outcome reports counts what happened: model calls, calls asked for, finished and repeated,
    and idle calls.
  */
  lemma OutcomeCounts(limits: PolicyLimits, reg: Registry, ops: seq<LedgerOp>, status: RunStatus, stop: string,
                      code: Option<string>, ms: nat)
    requires Play(limits, reg, ops).Some?
    ensures var h := Play(limits, reg, ops).value;
      var u := OutcomeOf(h.ledger, status, stop, code, true, ms).usage;
      && u.Some? && u.value.modelSteps == |h.admitted| && u.value.toolCallsAttempted == |h.reserved|
      && u.value.toolCallsSucceeded == |h.ledger.finished| && u.value.repeatedToolCalls == Repeats(h.reserved)
      && u.value.noProgressSteps == (if h.admitted == [] then 0 else Tail(h.admitted) - 1) && u.value.elapsedMs == ms
  {
    PlayInv(limits, reg, ops);
    PlayCounted(limits, reg, ops);
  }
}
