/**
  Two whole runs that share their tool call: one completes, the other loses its source to a repeated cancel
  (service.py).
*/
module WholeRuns {
  import opened Common
  import opened RunRecords
  import opened PolicyLedger
  import opened Budgets
  import opened RunSystem
  import opened RunOutcomes

  const LIMITS: PolicyLimits := Limits(1, 1, 1, 1, 1, 100, RequiredIfToolUsed)

  const TOOLS := Registry({"t"}, (tool: string, arguments: string) => Some(arguments), (tool: string) => "T",
                          (tool: string, arguments: string) => "")

  ghost predicate Reaches(steps: seq<SysStep>, s: System) { Trace(LIMITS, TOOLS, START, steps) == s }

  lemma Next1(steps: seq<SysStep>, s: System, step: SysStep)
    requires Reaches(steps, s)
    ensures Reaches(steps + [step], Next(LIMITS, TOOLS, s, step))
  {
    assert (steps + [step])[..|steps|] == steps;
  }

  lemma Produces(steps: seq<SysStep>, s: System, op: LedgerOp)
    requires Reaches(steps, s) && !op.Accept?
    ensures Reaches(steps + [Produce(op)], s.(ledger := Perform(LIMITS, TOOLS, s.ledger, op).ledger))
  {
    Next1(steps, s, Produce(op));
    assert Next(LIMITS, TOOLS, s, Produce(op)) == Produced(LIMITS, TOOLS, s, op);
  }

  lemma ReachedInv(steps: seq<SysStep>, s: System)
    requires Reaches(steps, s)
    ensures SysInv(s)
  {
    InitialInv("t", "k", "p", 0);
    TraceInv(LIMITS, TOOLS, START, steps);
  }

  // ----- the run -----

  const START := Initial("t", "k", "p", 0)
  const OUTCOME := ToolOutcome("r", "f", [ToolSource("s", "S", "D")])

  const RESERVE := ModelResponse([], [RawCall(Some("c"), Some("t"), Some("{}"))], 0)
  const BEGIN := BeginTool("c", "t", "{}", true, 0)
  const FINISH := FinishTool("c", "t", true, Some(OUTCOME), 0)

  const STARTED := ToolStarted("c", "t", "T", None)
  const FINISHED := ToolFinished("c", "t", "T", "r")
  const SOURCE := SourceAdded("s", "S", "D")

  const BEGUN: seq<SysStep> := [] + [Launch] + [StartCommit] + [Produce(RESERVE)] + [Produce(BEGIN)]
  const FOUND: seq<SysStep> := BEGUN + Storing(STARTED, 0, 0) + [Produce(FINISH)]

  const STORED: seq<SysStep> := FOUND + Storing(FINISHED, 0, 0) + Storing(SOURCE, 0, 0)

  /** A cancel stops the worker and its transaction rolls back; asked again, it finds no execution. */
  const CANCELLED: seq<SysStep> :=
    STORED + [WorkerCancelled] + [LockForCancel(0)] + [CancelRollsBack] + [SysStep.DetachedCancel(0)]

  const RESULT := AgentResult("Hi", ["s"])

  /** The answer is streamed, the result names the source, and the stream ends. */
  const COMPLETED: seq<SysStep> :=
    STORED + Storing(MessageDelta("Hi"), 0, 0) + [SysStep.Yield(ResultItem(RESULT), 0)] + ([StreamEnds(0)] + Ending(0))

  /** The ledger of the run before its events are stored. */
  lemma LedgerBegun()
    ensures var l := Perform(LIMITS, TOOLS, Perform(LIMITS, TOOLS, EMPTY_LEDGER, RESERVE).ledger, BEGIN).ledger;
      && l.started == map["c" := STARTED] && l.finished == map[] && l.sources == map[]
      && l.persistedStarted == {} && l.persistedFinished == {} && l.persistedSources == {} && l.succeeded == 0
  {
    var call := RawCall(Some("c"), Some("t"), Some("{}"));
    assert [call][1..] == [];
    var b := ExamineBatch(LIMITS, TOOLS, EmptyBatch(EMPTY_LEDGER), [call]);
    assert b == ExamineCall(LIMITS, TOOLS, EmptyBatch(EMPTY_LEDGER), call);
    assert b.violation.None? && b.pending == map["c" := Reservation("t", Fingerprint("t", "{}"))];
    assert RecordTexts(EMPTY_LEDGER, []) == EMPTY_LEDGER;
  }

  lemma OneSource(l: Ledger)
    requires l.sources == map[]
    ensures var r := AddSources(l, "c", OUTCOME.sources).0;
      && r.sources == map["s" := SourceEntry({"c"}, SOURCE)]
      && r == l.(seen := r.seen, progressRevision := r.progressRevision, sources := r.sources, generated := r.generated)
  {
    assert OUTCOME.sources[1..] == [];
  }

  lemma LedgerFinished(l: Ledger)
    requires l.started == map["c" := STARTED] && l.finished == map[] && l.sources == map[]
    ensures var r := Perform(LIMITS, TOOLS, l, FINISH).ledger;
      && r.finished == map["c" := FINISHED] && r.sources == map["s" := SourceEntry({"c"}, SOURCE)]
      && r.persistedStarted == l.persistedStarted && r.persistedFinished == l.persistedFinished
      && r.persistedSources == l.persistedSources && r.succeeded == l.succeeded + 1
  {
    OneSource(RecordProgress(l.(finished := l.finished["c" := FINISHED], succeeded := l.succeeded + 1), ToolFact("f")));
    assert forall i :: 0 <= i < |OUTCOME.sources| ==> !SourceConflict(l, OUTCOME.sources[i]);
  }

  lemma Stores(steps: seq<SysStep>, s: System, p: Payload) returns (t: System)
    requires Reaches(steps, s) && AtWork(s) && s.result.None? && Offered(LIMITS, s, p)
    ensures Reaches(steps + Storing(p, 0, 0), t) && AtWork(t)
    ensures t.result.None? && t.ledger == AcceptEvent(s.ledger, p).ledger
    ensures SourceIds(t.row.events) == SourceIds(s.row.events) + SourceOf(Some(p))
    ensures DeltaText(t.row.events) == DeltaText(s.row.events) + if p.MessageDelta? then p.delta else ""
  {
    ReachedInv(steps, s);
    OfferedEventIsStored(LIMITS, TOOLS, s, p, 0, 0);
    t := Trace(LIMITS, TOOLS, s, Storing(p, 0, 0));
    TraceConcat(LIMITS, TOOLS, START, steps, Storing(p, 0, 0));
    SourceIdsAppend(s.row.events, EventRow(|s.row.events| + 1, p));
    DeltaTextAppend(s.row.events, EventRow(|s.row.events| + 1, p));
  }

  /** The worker runs and the tool call has begun. */
  lemma Begun() returns (s: System)
    ensures Reaches(BEGUN, s) && AtWork(s) && s.result.None?
    ensures SourceIds(s.row.events) == [] && DeltaText(s.row.events) == ""
    ensures s.ledger == Perform(LIMITS, TOOLS, Perform(LIMITS, TOOLS, EMPTY_LEDGER, RESERVE).ledger, BEGIN).ledger
  {
    assert Reaches([], START);
    var launched := START.(worker := Starting);
    assert Launched(START) == launched;
    Next1([], START, Launch);
    s := launched.(row := StartRow(START.row), worker := Streaming);
    assert Started(launched) == s;
    Next1([] + [Launch], launched, StartCommit);
    SourceIdsAppend([], EventRow(1, RunStarted));
    DeltaTextAppend([], EventRow(1, RunStarted));
    assert s.row.events == [] + [EventRow(1, RunStarted)];
    Produces([] + [Launch] + [StartCommit], s, RESERVE);
    s := s.(ledger := Perform(LIMITS, TOOLS, s.ledger, RESERVE).ledger);
    Produces([] + [Launch] + [StartCommit] + [Produce(RESERVE)], s, BEGIN);
    s := s.(ledger := Perform(LIMITS, TOOLS, s.ledger, BEGIN).ledger);
  }

  /** The start of the call is stored and the call has found its source. */
  lemma Found() returns (s: System)
    ensures Reaches(FOUND, s) && AtWork(s) && s.result.None?
    ensures SourceIds(s.row.events) == [] && DeltaText(s.row.events) == ""
    ensures s.ledger.finished == map["c" := FINISHED] && s.ledger.sources == map["s" := SourceEntry({"c"}, SOURCE)]
    ensures s.ledger.persistedStarted == {"c"} && s.ledger.persistedFinished == {} && s.ledger.persistedSources == {}
    ensures s.ledger.succeeded == 1
  {
    LedgerBegun();
    s := Begun();
    s := Stores(BEGUN, s, STARTED);
    LedgerFinished(s.ledger);
    Produces(BEGUN + Storing(STARTED, 0, 0), s, FINISH);
    s := s.(ledger := Perform(LIMITS, TOOLS, s.ledger, FINISH).ledger);
  }

  lemma StoredAll() returns (s: System)
    ensures Reaches(STORED, s) && AtWork(s) && s.result.None? && SourceIds(s.row.events) == ["s"]
    ensures DeltaText(s.row.events) == "" && s.ledger.succeeded == 1
  {
    s := Found();
    s := Stores(FOUND, s, FINISHED);
    assert "c" in s.ledger.sources["s"].calls && "c" in s.ledger.persistedFinished;
    s := Stores(FOUND + Storing(FINISHED, 0, 0), s, SOURCE);
  }

  // ----- the run that completes -----

  /** The answer is in the log and the result, which names the source, has been handed over. */
  lemma Answered() returns (s: System)
    ensures Reaches(STORED + Storing(MessageDelta("Hi"), 0, 0) + [SysStep.Yield(ResultItem(RESULT), 0)], s)
    ensures AtWork(s) && s.result == Some(RESULT) && SourceIds(s.row.events) == ["s"]
    ensures DeltaText(s.row.events) == "Hi" && s.ledger.succeeded == 1
  {
    var t := StoredAll();
    t := Stores(STORED, t, MessageDelta("Hi"));
    Next1(STORED + Storing(MessageDelta("Hi"), 0, 0), t, SysStep.Yield(ResultItem(RESULT), 0));
    s := t.(result := Some(RESULT));
    assert Yielded(LIMITS, t, ResultItem(RESULT), 0) == s;
  }

  /** With a succeeded tool call and its source named, the run completes with the streamed answer. */
  lemma RunCompletes()
    ensures var s := Trace(LIMITS, TOOLS, START, COMPLETED);
      && s.row.status.Completed? && s.answers == ["Hi"] && s.row.outcome.Some?
      && s.row.outcome.value.resultSources == ["s"] && s.row.outcome.value.stopReason == "completed"
  {
    var s := Answered();
    var before := STORED + Storing(MessageDelta("Hi"), 0, 0) + [SysStep.Yield(ResultItem(RESULT), 0)];
    ReachedInv(before, s);
    assert Acceptable(LIMITS, s, RESULT) by {
      assert "s" in SourceIds(s.row.events);
      assert !IsSpace("Hi"[0]);
    }
    AcceptableResultCompletes(LIMITS, TOOLS, s, RESULT, 0, 0);
    TraceConcat(LIMITS, TOOLS, START, before, [StreamEnds(0)] + Ending(0));
  }

  // ----- the run that loses its source -----

  lemma CancelsTo(s: System)
    requires s.row.status.Running?
    ensures var row := Next(LIMITS, TOOLS, s, SysStep.DetachedCancel(0)).row;
      && row.status.Cancelled? && row.outcome.Some? && Detached(row.outcome.value)
      && row.outcome.value.acceptedSources == [] && SourceIds(row.events) == SourceIds(s.row.events)
  {
    var o := OutcomeOf(EMPTY_LEDGER, Cancelled, "user_cancelled", None, false, 0);
    TerminalWriteKeepsText(s.row, RowOp.Cancel(o, 0));
    assert CancelledDetached(s, 0).row == CancelRow(s.row, o, 0);
  }

  /** The first cancel stops the worker, and its own write is lost. */
  lemma CancelLost(steps: seq<SysStep>, s: System) returns (t: System)
    requires Reaches(steps, s) && AtWork(s)
    ensures Reaches(steps + [WorkerCancelled] + [LockForCancel(0)] + [CancelRollsBack], t)
    ensures t.row == s.row && t.worker.Gone? && t.lock.Free?
  {
    var stopped := s.(worker := Gone);
    assert Next(LIMITS, TOOLS, s, WorkerCancelled) == stopped by { assert Left(s) == stopped; }
    Next1(steps, s, WorkerCancelled);
    t := LockLost(steps + [WorkerCancelled], stopped);
  }

  lemma LockLost(steps: seq<SysStep>, s: System) returns (t: System)
    requires Reaches(steps, s) && s.worker.Gone? && s.lock.Free? && !s.fatal && s.row.status.Running?
    ensures Reaches(steps + [LockForCancel(0)] + [CancelRollsBack], t)
    ensures t.row == s.row && t.worker.Gone? && t.lock.Free?
  {
    Next1(steps, s, LockForCancel(0));
    var locked := CancelLocked(s, 0);
    Next1(steps + [LockForCancel(0)], locked, CancelRollsBack);
    t := CancelUndone(locked);
  }

  /** The repeated cancel ends the run with an outcome that accepts no source although the log holds one. */
  lemma SourceLost()
    ensures var row := Trace(LIMITS, TOOLS, START, CANCELLED).row;
      && row.status.Cancelled? && row.outcome.Some? && Detached(row.outcome.value)
      && row.outcome.value.acceptedSources == [] && SourceIds(row.events) == ["s"]
  {
    var s := StoredAll();
    var t := CancelLost(STORED, s);
    CancelsTo(t);
    Next1(STORED + [WorkerCancelled] + [LockForCancel(0)] + [CancelRollsBack], t, SysStep.DetachedCancel(0));
  }
}
