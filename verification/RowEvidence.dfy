/**
  What a stored run says of itself beside its invariant: first delta, failure code, category and attempt
  times (repository.py).
*/
module RowEvidence {
  import opened Common
  import opened UsageMetrics
  import opened RunRecords
  import opened FrozenUsage
  import opened Database

  predicate HasDelta(events: seq<EventRow>) { exists i :: 0 <= i < |events| && events[i].payload.MessageDelta? }

  /** A failed run announces the failure code its outcome records. */
  predicate FailureAnnounced(row: RunRow) {
    row.status.Failed? && row.outcome.Some? ==>
      && row.events != [] && row.events[|row.events| - 1].payload.RunFailed?
      && row.outcome.value.failureCode == Some(row.events[|row.events| - 1].payload.code)
  }

  /** The category of the frozen usage belongs to how the run ended. */
  predicate CategoryFits(row: RunRow) {
    row.metered && !row.status.Active() ==>
      && row.usage.Some? && row.usage.value.FinalUsage?
      && (row.status.Completed? ==> row.usage.value.category.None?)
      && (row.status.Cancelled? ==> row.usage.value.category == Some(UserCancelled))
      && (row.status.Failed? ==> row.usage.value.category.Some?)
  }

  predicate AttemptsTimed(attempts: seq<AttemptRow>) {
    forall i :: 0 <= i < |attempts| ==> (attempts[i].completedAt.Some? <==> !attempts[i].status.Open?)
  }

  ghost predicate RowTells(row: RunRow) {
    && (row.firstVisible.Some? <==> HasDelta(row.events))
    && FailureAnnounced(row) && CategoryFits(row) && AttemptsTimed(row.attempts)
  }

  lemma DeltaAppend(events: seq<EventRow>, e: EventRow)
    ensures HasDelta(events + [e]) <==> HasDelta(events) || e.payload.MessageDelta?
  {
    if i :| 0 <= i < |events| && events[i].payload.MessageDelta? { assert (events + [e])[i] == events[i]; }
    assert (events + [e])[|events|] == e;
  }

  lemma ClosedTimed(attempts: seq<AttemptRow>, status: AttemptStatus, at: int)
    requires AttemptsTimed(attempts) && !status.Open?
    ensures AttemptsTimed(CloseOpen(attempts, status, at))
  {}

  lemma TerminalTells(row: RunRow, op: RowOp)
    requires RowTells(row) && WellFormed(op) && row.status.Active() && (op.Fail? || op.Cancel? || op.Sweep?)
    ensures RowTells(ApplyRow(row, op))
  {
    var next := ApplyRow(row, op);
    var e := next.events[|row.events|];
    assert next.events == row.events + [e];
    DeltaAppend(row.events, e);
    match op
    case Fail(_, _, _, now) => ClosedTimed(row.attempts, AttemptFailed, now);
    case Cancel(_, now) => ClosedTimed(row.attempts, AttemptCancelled, now);
    case Sweep(now) => ClosedTimed(row.attempts, Interrupted, now);
  }

  lemma CompleteTells(row: RunRow, op: RowOp)
    requires RowTells(row) && WellFormed(op) && row.status.Running? && op.Complete?
    ensures RowTells(ApplyRow(row, op))
  {
    var next, n := ApplyRow(row, op), |row.events|;
    DeltaAppend(row.events, next.events[n]);
    DeltaAppend(row.events + [next.events[n]], next.events[n + 1]);
    assert next.events == row.events + [next.events[n]] + [next.events[n + 1]];
    ClosedTimed(row.attempts, Interrupted, op.now);
  }

  lemma EventTells(row: RunRow, op: RowOp)
    requires RowTells(row) && (op.Start? || op.Append?)
    ensures RowTells(ApplyRow(row, op))
  {
    var next := ApplyRow(row, op);
    if next != row { DeltaAppend(row.events, next.events[|row.events|]); }
  }

  lemma AttemptTells(row: RunRow, op: RowOp)
    requires RowTells(row) && WellFormed(op) && (op.StartAttempt? || op.FinishAttempt? || op.RecordUsage?)
    ensures RowTells(ApplyRow(row, op))
  {}

  lemma TellsKept(row: RunRow, op: RowOp)
    requires RowTells(row) && WellFormed(op)
    ensures RowTells(ApplyRow(row, op))
  {
    match op
    case Start => EventTells(row, op);
    case Append(_, _) => EventTells(row, op);
    case Complete(_, _, _, _) => if row.status.Running? { CompleteTells(row, op); }
    case Fail(_, _, _, _) => if row.status.Active() { TerminalTells(row, op); }
    case Cancel(_, _) => if row.status.Active() { TerminalTells(row, op); }
    case Sweep(_) => if row.status.Active() { TerminalTells(row, op); }
    case _ => AttemptTells(row, op);
  }

  /** In every reachable database every run tells the truth about itself in these respects. */
  lemma {:induction false} ReachableTells(ops: seq<Op>, r: RunId)
    requires AllWellFormed(ops) && r in ApplyAll(EMPTY, ops).runs
    ensures RowTells(ApplyAll(EMPTY, ops).runs[r])
  {
    if ops != [] {
      var before, op := ApplyAll(EMPTY, ops[..|ops| - 1]), ops[|ops| - 1];
      if r in before.runs { ReachableTells(ops[..|ops| - 1], r); }
      OneStepTells(before, op, r);
    }
  }

  lemma OneStepTells(db: Db, op: Op, r: RunId)
    requires OpWellFormed(op) && r in Apply(db, op).runs && (r in db.runs ==> RowTells(db.runs[r]))
    ensures RowTells(Apply(db, op).runs[r])
  {
    if r in db.runs {
      if op.SweepAll? { TellsKept(db.runs[r], Sweep(op.now)); }
      if op.OnRun? && op.run == r { TellsKept(db.runs[r], op.op); }
    }
  }

  // ----- how a run ends -----

  /**
    A terminal write: these events after the earlier ones, open attempts closed this way, totals frozen, the
    rest as before.
  */
  ghost predicate EndsAs(row: RunRow, next: RunRow, status: RunStatus, at: int, open: AttemptStatus,
                         category: Option<ErrorCategory>, outcome: Option<Outcome>, tail: seq<Payload>) {
    && next == row.(status := status, completedAt := Some(at), outcome := outcome, lastSeq := row.lastSeq + |tail|,
                    events := next.events, attempts := next.attempts, usage := next.usage)
    && |next.events| == |row.events| + |tail| && row.events <= next.events
    && (forall i :: 0 <= i < |tail| ==> next.events[|row.events| + i] == EventRow(row.lastSeq + 1 + i, tail[i]))
    && (if row.metered
        then
          && AttemptsClosed(row.attempts, next.attempts, at, open)
          && next.usage.Some? && UsageTotals(next.usage.value, next, at) && next.usage.value.category == category
        else next.attempts == row.attempts && next.usage == row.usage)
  }

  /** The usage a terminal event carries: the frozen one, or none for a run that is not metered. */
  function Announced(row: RunRow): RunUsage {
    if row.metered && row.usage.Some? then row.usage.value else if row.metered then UsagePending else UsageNotKnown
  }

  /** What each terminal transaction leaves behind, and that it leaves an ended run alone. */
  lemma EndsExactly(row: RunRow, op: RowOp)
    ensures var next := ApplyRow(row, op);
      match op
      case Complete(content, _, o, now) =>
        if row.status.Running?
        then EndsAs(row, next, Completed, now, Interrupted, None, Some(o),
                    [MessageCompleted(content), RunCompleted(Announced(next))])
        else next == row
      case Fail(code, category, o, now) =>
        if row.status.Active()
        then EndsAs(row, next, Failed, now, AttemptFailed, Some(category), Some(o), [RunFailed(code, Announced(next))])
        else next == row
      case Cancel(o, now) =>
        if row.status.Active()
        then EndsAs(row, next, Cancelled, now, AttemptCancelled, Some(UserCancelled), Some(o), [RunCancelled(Announced(next))])
        else next == row
      case Sweep(now) =>
        if row.status.Active()
        then EndsAs(row, next, Failed, now, Interrupted, Some(ServiceError), SweepOutcome(row),
                    [RunFailed("service_restarted", Announced(next))])
        else next == row
      case _ => true
  {
    match op
    case Complete(content, _, o, now) => if row.status.Running? { CompleteEnds(row, content, o, now); }
    case Fail(code, category, o, now) => if row.status.Active() { FailEnds(row, code, category, AttemptFailed, Some(o), now); }
    case Cancel(o, now) => if row.status.Active() { CancelEnds(row, o, now); }
    case Sweep(now) => if row.status.Active() { FailEnds(row, "service_restarted", ServiceError, Interrupted, SweepOutcome(row), now); }
    case _ =>
  }

  lemma CompleteEnds(row: RunRow, content: string, o: Outcome, now: int)
    requires row.status.Running?
    ensures var next := CompleteRow(row, content, o, now);
      EndsAs(row, next, Completed, now, Interrupted, None, Some(o), [MessageCompleted(content), RunCompleted(Announced(next))])
  {
    var done := row.(status := Completed, completedAt := Some(now), outcome := Some(o));
    EndTotals(done, CompleteRow(row, content, o, now), now, Interrupted, None);
  }

  lemma FailEnds(row: RunRow, code: string, category: ErrorCategory, open: AttemptStatus, o: Option<Outcome>, now: int)
    requires row.status.Active()
    ensures var next := FailRow(row, code, category, open, o, now);
      EndsAs(row, next, Failed, now, open, Some(category), o, [RunFailed(code, Announced(next))])
  {
    var done := row.(status := Failed, completedAt := Some(now), outcome := o);
    EndTotals(done, FailRow(row, code, category, open, o, now), now, open, Some(category));
  }

  lemma CancelEnds(row: RunRow, o: Outcome, now: int)
    requires row.status.Active()
    ensures var next := CancelRow(row, o, now);
      EndsAs(row, next, Cancelled, now, AttemptCancelled, Some(UserCancelled), Some(o), [RunCancelled(Announced(next))])
  {
    var done := row.(status := Cancelled, completedAt := Some(now), outcome := Some(o));
    EndTotals(done, CancelRow(row, o, now), now, AttemptCancelled, Some(UserCancelled));
  }

  /** The totals do not depend on what the terminal write adds besides them. */
  lemma EndTotals(done: RunRow, next: RunRow, now: int, open: AttemptStatus, category: Option<ErrorCategory>)
    requires var w := WithTerminalUsage(done, now, open, category);
      next == w.(lastSeq := next.lastSeq, events := next.events)
    ensures done.metered ==>
      && AttemptsClosed(done.attempts, next.attempts, now, open)
      && next.usage.Some? && UsageTotals(next.usage.value, next, now) && next.usage.value.category == category
    ensures !done.metered ==> next.attempts == done.attempts && next.usage == done.usage
  {
    UsageWritten(done, now, open, category);
  }
}
