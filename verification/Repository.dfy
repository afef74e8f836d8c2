/** The product repository: step-by-step transactions, each equal to one atomic database step. */
module Repository {
  import opened Common
  import opened RunRecords
  import opened Database
  import opened FrozenUsage
  import opened A = Admission

  datatype RepositoryError =
    | Unavailable(reason: string)
    | NotFound
    | InvalidEvent
    | OutcomeMismatch
    | ContradictoryEvidence
    | NotMeterable
    | AttemptConflict
    | AttemptUnknown
    | Refused(error: AdmissionError)

  /** What an initial run that already exists is answered. */
  lemma ReplayAnswer(db: Db, existing: RunId, r: RunId, text: string)
    requires DbInv(db) && existing in db.runs
    ensures var run, questions := db.runs[existing], MessagesOf(db, existing, User);
      && |questions| == 1 && run.thread in db.threads
      && A.CreateInitialRun(db, db, db, r, run.thread, run.key, text)
         == if questions[0].content != text then Err(A.IdempotencyMismatch) else Ok(Admitted(existing, false))
  {
    KeyOwner(db, existing);
    assert MessagesMatch(db, existing);
  }

  class ProductRepository {
    var threads: map<ThreadId, ThreadRow>
    var runs: map<RunId, RunRow>
    var messages: seq<MessageRow>
    var fatal: Option<string>

    ghost function State(): Db reads this { Db(threads, runs, messages) }

    constructor ()
      ensures State() == EMPTY && fatal == None
    {
      threads, runs, messages, fatal := map[], map[], [], None;
    }

    /** The first reason sticks; afterwards every operation is refused. */
    method FailClosed(reason: string)
      modifies this`fatal
      ensures fatal == if old(fatal).None? then Some(reason) else old(fatal)
    {
      if fatal.None? { fatal := Some(reason); }
    }

    method CreateThread(t: ThreadId, now: int) returns (res: Result<(), RepositoryError>)
      requires t !in threads
      modifies this`threads
      ensures fatal.Some? ==> res.Err? && State() == old(State())
      ensures fatal.None? ==> res.Ok? && State() == Apply(old(State()), Op.CreateThread(t, now))
    {
      if fatal.Some? { return Err(Unavailable(fatal.value)); }
      threads := threads[t := ThreadRow(now, now)];
      res := Ok(());
    }

    /** One uninterrupted call; the admission model splits it at the points where others may run. */
    method CreateRun(r: RunId, t: ThreadId, key: string, plan: string, messageId: string, text: string, now: int)
      returns (res: Result<Admitted, RepositoryError>)
      requires Keys(State()) && r !in runs
      modifies this`threads, this`runs, this`messages
      ensures fatal.Some? ==> res == Err(Unavailable(fatal.value)) && State() == old(State())
      ensures fatal.None? ==> State() == Apply(old(State()), InsertRun(r, t, key, plan, messageId, text, now))
      ensures fatal.None? ==> var answer := A.CreateRun(old(State()), old(State()), old(State()), r, t, key);
        match answer case Ok(v) => res == Ok(v) case Err(e) => res == Err(Refused(e))
    {
      if fatal.Some? { return Err(Unavailable(fatal.value)); }
      if t !in threads { return Err(Refused(ThreadNotFound)); }
      if existing :| existing in runs && runs[existing].thread == t && runs[existing].key == key {
        assert KeyTaken(State(), t, key);
        return Ok(Admitted(existing, false));
      }
      if active :| active in runs && runs[active].thread == t && runs[active].status.Active() {
        assert ThreadBusy(State(), t);
        return Err(Refused(ActiveRunConflict));
      }
      runs := runs[r := NewRow(t, key, plan, now)];
      messages := messages + [MessageRow(messageId, t, r, User, text, now)];
      threads := threads[t := threads[t].(updatedAt := now)];
      res := Ok(Admitted(r, true));
    }

    /** Thread, run and question together, or the replay of an existing initial run. */
    method CreateInitialRun(r: RunId, t: ThreadId, key: string, plan: string, messageId: string, text: string, now: int)
      returns (res: Result<Admitted, RepositoryError>)
      requires DbInv(State()) && r !in runs
      modifies this`threads, this`runs, this`messages
      ensures fatal.Some? ==> res == Err(Unavailable(fatal.value)) && State() == old(State())
      ensures fatal.None? ==> State() == Apply(old(State()), InsertInitial(r, t, key, plan, messageId, text, now))
      ensures fatal.None? ==> var answer := A.CreateInitialRun(old(State()), old(State()), old(State()), r, t, key, text);
        match answer case Ok(v) => res == Ok(v) case Err(e) => res == Err(Refused(e))
    {
      if fatal.Some? { return Err(Unavailable(fatal.value)); }
      if t in threads {
        if existing :| existing in runs && runs[existing].thread == t && runs[existing].key == key {
          ReplayAnswer(State(), existing, r, text);
          var questions := Filter(messages, (m: MessageRow) => Of(m, existing, User));
          return if questions[0].content != text then Err(Refused(IdempotencyMismatch)) else Ok(Admitted(existing, false));
        }
        return Err(Refused(InitialThreadExists));
      }
      threads := threads[t := ThreadRow(now, now)];
      runs := runs[r := NewRow(t, key, plan, now)];
      messages := messages + [MessageRow(messageId, t, r, User, text, now)];
      res := Ok(Admitted(r, true));
    }

    method StartRun(r: RunId) returns (res: Result<bool, RepositoryError>)
      modifies this`runs
      ensures fatal.Some? ==> res == Err(Unavailable(fatal.value)) && State() == old(State())
      ensures fatal.None? ==> State() == Apply(old(State()), OnRun(r, Start))
      ensures fatal.None? ==> res == if r !in old(runs) then Err(NotFound) else Ok(old(runs)[r].status.Created?)
    {
      if fatal.Some? { return Err(Unavailable(fatal.value)); }
      if r !in runs { return Err(NotFound); }
      var run := runs[r];
      if !run.status.Created? { assert runs == runs[r := run]; return Ok(false); }
      run := run.(status := Running, lastSeq := run.lastSeq + 1);
      run := run.(events := run.events + [EventRow(run.lastSeq, RunStarted)]);
      runs := runs[r := run];
      res := Ok(true);
    }

    /** The stored event, or nothing once the run is no longer running. */
    method AppendActiveEvent(r: RunId, p: Payload, now: int) returns (res: Result<Option<EventRow>, RepositoryError>)
      modifies this`runs
      ensures fatal.Some? ==> res == Err(Unavailable(fatal.value)) && State() == old(State())
      ensures fatal.None? && !ValidRuntimePayload(p) ==> res == Err(InvalidEvent) && State() == old(State())
      ensures fatal.None? && ValidRuntimePayload(p) ==>
        && State() == Apply(old(State()), OnRun(r, Append(p, now)))
        && res == if r !in old(runs) then Err(NotFound)
                  else if old(runs)[r].status.Running? then Ok(Some(EventRow(old(runs)[r].lastSeq + 1, p)))
                  else Ok(None)
    {
      if fatal.Some? { return Err(Unavailable(fatal.value)); }
      if !ValidRuntimePayload(p) { return Err(InvalidEvent); }
      if r !in runs { return Err(NotFound); }
      var run := runs[r];
      if !run.status.Running? { assert runs == runs[r := run]; return Ok(None); }
      run := run.(lastSeq := run.lastSeq + 1);
      if p.MessageDelta? && run.firstVisible.None? { run := run.(firstVisible := Some(now)); }
      var event := EventRow(run.lastSeq, p);
      run := run.(events := run.events + [event]);
      runs := runs[r := run];
      res := Ok(Some(event));
    }

    method StartModelAttempt(r: RunId, id: string, callIndex: nat, attemptIndex: nat, kind: CallKind, now: int)
      returns (res: Result<(), RepositoryError>)
      modifies this`runs
      ensures fatal.Some? ==> res == Err(Unavailable(fatal.value)) && State() == old(State())
      ensures fatal.None? ==>
        State() == Apply(old(State()), OnRun(r, StartAttempt(id, callIndex, attemptIndex, kind, now)))
      ensures fatal.None? && res.Ok? ==>
        && r in runs && runs[r].status.Running? && runs[r].metered
        && exists i :: 0 <= i < |runs[r].attempts| &&
             var a := runs[r].attempts[i];
             a.id == id && a.callIndex == callIndex && a.attemptIndex == attemptIndex && a.kind == kind && a.status.Open?
    {
      if fatal.Some? { return Err(Unavailable(fatal.value)); }
      if r !in runs { return Err(NotFound); }
      var run := runs[r];
      if !run.status.Running? || !run.metered { assert runs == runs[r := run]; return Err(NotMeterable); }
      if i :| 0 <= i < |run.attempts| && SameAttempt(run.attempts[i], id, callIndex, attemptIndex) {
        assert runs == runs[r := run];
        var a := run.attempts[i];
        if a.id == id && a.callIndex == callIndex && a.attemptIndex == attemptIndex && a.kind == kind && a.status.Open? {
          return Ok(());
        }
        return Err(AttemptConflict);
      }
      var row := AttemptRow(id, callIndex, attemptIndex, kind, Open, now, None, NO_TOKENS);
      run := run.(attempts := run.attempts + [row]);
      assert run.attempts[|run.attempts| - 1] == row;
      runs := runs[r := run];
      res := Ok(());
    }

    /** Ok(false) tells a late finisher that a terminal write already won. */
    method FinishModelAttempt(r: RunId, id: string, status: AttemptStatus, tokens: Tokens, now: int)
      returns (res: Result<bool, RepositoryError>)
      modifies this`runs
      ensures fatal.Some? ==> res == Err(Unavailable(fatal.value)) && State() == old(State())
      ensures fatal.None? ==> State() == Apply(old(State()), OnRun(r, FinishAttempt(id, status, tokens, now)))
      ensures res == Ok(true) ==>
        && r in runs && runs[r].status.Active() && AttemptIndexOf(runs[r].attempts, id).Some?
        && var a := runs[r].attempts[AttemptIndexOf(runs[r].attempts, id).value]; a.status == status && a.tokens == tokens
      ensures res == Ok(false) ==> r in runs && !runs[r].status.Active() && State() == old(State())
    {
      if fatal.Some? { return Err(Unavailable(fatal.value)); }
      if r !in runs { return Err(NotFound); }
      var run := runs[r];
      assert runs == runs[r := run];
      var at := AttemptIndexOf(run.attempts, id);
      if at.None? { return Err(AttemptUnknown); }
      if !run.status.Active() { return Ok(false); }
      var a := run.attempts[at.value];
      if !a.status.Open? {
        if a.status == status && a.tokens == tokens { return Ok(true); }
        return Err(AttemptConflict);
      }
      AttemptIndexStable(run.attempts, id, a.(status := status, completedAt := Some(now), tokens := tokens));
      run := run.(attempts := run.attempts[at.value := a.(status := status, completedAt := Some(now), tokens := tokens)]);
      runs := runs[r := run];
      res := Ok(true);
    }

    method RecordModelAttemptUsage(r: RunId, id: string, tokens: Tokens) returns (res: Result<bool, RepositoryError>)
      requires tokens != NO_TOKENS
      modifies this`runs
      ensures fatal.Some? ==> res == Err(Unavailable(fatal.value)) && State() == old(State())
      ensures fatal.None? ==> State() == Apply(old(State()), OnRun(r, RecordUsage(id, tokens)))
      ensures res == Ok(true) ==>
        && r in runs && runs[r].status.Active() && AttemptIndexOf(runs[r].attempts, id).Some?
        && runs[r].attempts[AttemptIndexOf(runs[r].attempts, id).value].tokens == tokens
      ensures res == Ok(false) ==> r in runs && !runs[r].status.Active() && State() == old(State())
    {
      if fatal.Some? { return Err(Unavailable(fatal.value)); }
      if r !in runs { return Err(NotFound); }
      var run := runs[r];
      assert runs == runs[r := run];
      var at := AttemptIndexOf(run.attempts, id);
      if at.None? { return Err(AttemptUnknown); }
      if !run.status.Active() { return Ok(false); }
      var a := run.attempts[at.value];
      if a.tokens != NO_TOKENS {
        if a.tokens == tokens { return Ok(true); }
        return Err(AttemptConflict);
      }
      if !a.status.Open? { return Err(AttemptConflict); }
      AttemptIndexStable(run.attempts, id, a.(tokens := tokens));
      run := run.(attempts := run.attempts[at.value := a.(tokens := tokens)]);
      runs := runs[r := run];
      res := Ok(true);
    }

    /**
      Close open attempts, then freeze the usage computed from the closed rows: the result has no open
      attempt, its totals are those of its own attempts, and nothing else of the run changes.
    */
    static method WriteTerminalUsage(run: RunRow, at: int, open: AttemptStatus, category: Option<ErrorCategory>)
      returns (r: RunRow)
      ensures r == WithTerminalUsage(run, at, open, category)
      ensures TerminalUsageWritten(run, r, at, open, category)
    {
      r := run;
      if !r.metered { return; }
      var attempts := r.attempts;
      for i := 0 to |attempts|
        invariant |attempts| == |run.attempts|
        invariant forall j :: 0 <= j < i ==> attempts[j] == CloseOpen(run.attempts, open, at)[j]
        invariant forall j :: i <= j < |attempts| ==> attempts[j] == run.attempts[j]
      {
        if attempts[i].status.Open? {
          attempts := attempts[i := attempts[i].(status := open, completedAt := Some(at))];
        }
      }
      assert attempts == CloseOpen(run.attempts, open, at);
      r := r.(attempts := attempts);
      r := r.(usage := Some(TerminalRunUsage(r, at, category)));
      UsageWritten(run, at, open, category);
    }

    /** The row of a run that completes: its answer event comes just before its terminal event. */
    static method WriteCompletion(running: RunRow, content: string, o: Outcome, now: int) returns (run: RunRow)
      requires running.status.Running?
      ensures run == CompleteRow(running, content, o, now)
    {
      run := running.(status := Completed, completedAt := Some(now), lastSeq := running.lastSeq + 2, outcome := Some(o));
      run := WriteTerminalUsage(run, now, Interrupted, None);
      run := run.(events := run.events + [EventRow(run.lastSeq - 1, MessageCompleted(content))]);
      run := run.(events := run.events + [EventRow(run.lastSeq, RunCompleted(ViewUsage(run)))]);
      assert run.events == running.events
        + [EventRow(run.lastSeq - 1, MessageCompleted(content)), EventRow(run.lastSeq, RunCompleted(ViewUsage(run)))];
    }

    method CompleteRun(r: RunId, content: string, messageId: string, o: Outcome, now: int)
      returns (res: Result<RunRow, RepositoryError>)
      requires r in runs ==> runs[r].thread in threads
      modifies this`threads, this`runs, this`messages
      ensures fatal.Some? ==> res == Err(Unavailable(fatal.value)) && State() == old(State())
      ensures fatal.None? && !o.status.Completed? ==> res == Err(OutcomeMismatch) && State() == old(State())
      ensures fatal.None? && o.status.Completed? ==>
        && State() == Apply(old(State()), OnRun(r, Complete(content, messageId, o, now)))
        && res == if r in runs then Ok(runs[r]) else Err(NotFound)
    {
      if fatal.Some? { return Err(Unavailable(fatal.value)); }
      if !o.status.Completed? { return Err(OutcomeMismatch); }
      if r !in runs { return Err(NotFound); }
      var run := runs[r];
      if !run.status.Running? { assert runs == runs[r := run]; return Ok(run); }
      messages := messages + [MessageRow(messageId, run.thread, r, Assistant, content, now)];
      run := WriteCompletion(run, content, o, now);
      runs := runs[r := run];
      threads := threads[run.thread := threads[run.thread].(updatedAt := now)];
      res := Ok(run);
    }

    static method WriteFailure(active: RunRow, code: string, category: ErrorCategory, o: Outcome, now: int)
      returns (run: RunRow)
      requires active.status.Active()
      ensures run == FailRow(active, code, category, AttemptFailed, Some(o), now)
    {
      run := active.(status := Failed, completedAt := Some(now), lastSeq := active.lastSeq + 1, outcome := Some(o));
      run := WriteTerminalUsage(run, now, AttemptFailed, Some(category));
      run := run.(events := run.events + [EventRow(run.lastSeq, RunFailed(code, ViewUsage(run)))]);
    }

    method FailRun(r: RunId, code: string, category: ErrorCategory, o: Outcome, now: int)
      returns (res: Result<RunRow, RepositoryError>)
      requires r in runs ==> runs[r].thread in threads
      modifies this`threads, this`runs
      ensures fatal.Some? ==> res == Err(Unavailable(fatal.value)) && State() == old(State())
      ensures fatal.None? && !(o.status.Failed? && o.failureCode == Some(code)) ==>
        res == Err(OutcomeMismatch) && State() == old(State())
      ensures fatal.None? && o.status.Failed? && o.failureCode == Some(code) ==>
        && State() == Apply(old(State()), OnRun(r, Fail(code, category, o, now)))
        && res == if r in runs then Ok(runs[r]) else Err(NotFound)
    {
      if fatal.Some? { return Err(Unavailable(fatal.value)); }
      if !(o.status.Failed? && o.failureCode == Some(code)) { return Err(OutcomeMismatch); }
      if r !in runs { return Err(NotFound); }
      var run := runs[r];
      if !run.status.Active() { assert runs == runs[r := run]; return Ok(run); }
      run := WriteFailure(run, code, category, o, now);
      runs := runs[r := run];
      threads := threads[run.thread := threads[run.thread].(updatedAt := now)];
      res := Ok(run);
    }

    static method WriteCancel(active: RunRow, o: Outcome, now: int) returns (run: RunRow)
      requires active.status.Active()
      ensures run == CancelRow(active, o, now)
    {
      run := active.(status := Cancelled, completedAt := Some(now), lastSeq := active.lastSeq + 1, outcome := Some(o));
      run := WriteTerminalUsage(run, now, AttemptCancelled, Some(UserCancelled));
      run := run.(events := run.events + [EventRow(run.lastSeq, RunCancelled(ViewUsage(run)))]);
    }

    method CancelRun(r: RunId, o: Outcome, now: int) returns (res: Result<RunRow, RepositoryError>)
      requires r in runs ==> runs[r].thread in threads
      modifies this`threads, this`runs
      ensures fatal.Some? ==> res == Err(Unavailable(fatal.value)) && State() == old(State())
      ensures fatal.None? && !o.status.Cancelled? ==> res == Err(OutcomeMismatch) && State() == old(State())
      ensures fatal.None? && o.status.Cancelled? ==>
        && State() == Apply(old(State()), OnRun(r, RowOp.Cancel(o, now)))
        && res == if r in runs then Ok(runs[r]) else Err(NotFound)
    {
      if fatal.Some? { return Err(Unavailable(fatal.value)); }
      if !o.status.Cancelled? { return Err(OutcomeMismatch); }
      if r !in runs { return Err(NotFound); }
      var run := runs[r];
      if !run.status.Active() { assert runs == runs[r := run]; return Ok(run); }
      run := WriteCancel(run, o, now);
      runs := runs[r := run];
      threads := threads[run.thread := threads[run.thread].(updatedAt := now)];
      res := Ok(run);
    }

    /** The source ids of a log in order, first occurrences only. */
    static method CollectSources(events: seq<EventRow>) returns (ids: seq<string>)
      ensures ids == Dedup(SourceIds(events))
    {
      ids := [];
      for i := 0 to |events|
        invariant ids == Dedup(SourceIds(events[..i]))
      {
        SourceIdsAppend(events[..i], events[i]);
        assert events[..i + 1] == events[..i] + [events[i]];
        var p := events[i].payload;
        ghost var before, all := SourceIds(events[..i]), SourceIds(events[..i + 1]);
        assert p.SourceAdded? ==> all == before + [p.sourceId] && all[..|all| - 1] == before;
        assert !p.SourceAdded? ==> all == before;
        if p.SourceAdded? {
          if p.sourceId !in ids { ids := ids + [p.sourceId]; }
        }
      }
      assert events[..|events|] == events;
    }

    /** The outcome of a planned run is rebuilt from its log; a legacy run keeps none. */
    static method SweepOne(orphan: RunRow, now: int) returns (run: RunRow)
      requires orphan.status.Active()
      ensures run == SweepRow(orphan, now)
    {
      run := orphan;
      var outcome: Option<Outcome> := None;
      if run.plan.Some? {
        var ids := CollectSources(run.events);
        outcome := Some(OrphanOutcome(ids));
      }
      run := run.(status := Failed, completedAt := Some(now), lastSeq := run.lastSeq + 1, outcome := outcome);
      run := WriteTerminalUsage(run, now, Interrupted, Some(ServiceError));
      run := run.(events := run.events + [EventRow(run.lastSeq, RunFailed("service_restarted", ViewUsage(run)))]);
    }

    /** Sweep the candidates one by one; contradictory evidence stops the sweep. */
    static method SweepEach(all: map<RunId, RunRow>, stamps: map<ThreadId, ThreadRow>, candidates: set<RunId>, now: int)
      returns (ok: bool, work: map<RunId, RunRow>, stamped: map<ThreadId, ThreadRow>)
      requires forall r :: r in candidates ==> r in all && all[r].status.Active() && all[r].thread in stamps
      ensures ok <==> forall r :: r in candidates ==> all[r].outcome.None?
      ensures ok ==> work == (map r | r in all :: if r in candidates then SweepRow(all[r], now) else all[r])
      ensures ok ==> stamped == (map t | t in stamps :: Stamp(all, stamps[t], candidates, t, now))
    {
      var done: set<RunId> := {};
      work, stamped := all, stamps;
      while done != candidates
        invariant done <= candidates
        invariant work == map r | r in all :: if r in done then SweepRow(all[r], now) else all[r]
        invariant stamped == map t | t in stamps :: Stamp(all, stamps[t], done, t, now)
        invariant forall r :: r in done ==> all[r].outcome.None?
        decreases candidates - done
      {
        assert candidates - done != {};
        var r :| r in candidates - done;
        var run := work[r];
        if run.outcome.Some? { return false, work, stamped; }
        run := SweepOne(run, now);
        work := work[r := run];
        stamped := stamped[all[r].thread := stamps[all[r].thread].(updatedAt := now)];
        done := done + {r};
      }
      ok := true;
    }

    /** Close every run a previous process left active, all in one transaction. */
    method FailOrphanedRuns(now: int) returns (res: Result<set<RunId>, RepositoryError>)
      requires Keys(State())
      modifies this`threads, this`runs
      ensures fatal.Some? ==> res == Err(Unavailable(fatal.value)) && State() == old(State())
      ensures fatal.None? ==>
        (res.Ok? <==> forall r :: r in old(runs) && old(runs)[r].status.Active() ==> old(runs)[r].outcome.None?)
      ensures res.Ok? ==>
        && State() == Apply(old(State()), SweepAll(now))
        && res.value == set r | r in old(runs) && old(runs)[r].status.Active()
      ensures res.Err? ==> State() == old(State())
    {
      if fatal.Some? { return Err(Unavailable(fatal.value)); }
      var candidates := set r | r in runs && runs[r].status.Active();
      var ok, work, stamped := SweepEach(runs, threads, candidates, now);
      if !ok { return Err(ContradictoryEvidence); }
      SweepEachIsSweepAll(State(), work, stamped, candidates, now);
      runs, threads := work, stamped;
      res := Ok(candidates);
    }

    /** The events beyond a cursor; of a numbered log exactly what follows the cursor, and nothing past its end. */
    method GetEvents(r: RunId, after: nat) returns (res: Result<seq<EventRow>, RepositoryError>)
      ensures fatal.Some? ==> res == Err(Unavailable(fatal.value))
      ensures fatal.None? ==> (res.Ok? <==> r in runs) && (r !in runs ==> res == Err(NotFound))
      ensures res.Ok? && Numbered(runs[r]) ==>
        res.value == if after <= runs[r].lastSeq then runs[r].events[after..] else []
      ensures res.Ok? ==> forall e :: e in res.value <==> e in runs[r].events && e.seqNo > after
    {
      if fatal.Some? { return Err(Unavailable(fatal.value)); }
      if r !in runs { return Err(NotFound); }
      if Numbered(runs[r]) { EventsAfterIsSuffix(runs[r].events, after, 0); }
      res := Ok(EventsAfter(runs[r].events, after));
    }
  }

  /** A thread is touched once one of its swept runs is. */
  function Stamp(runs: map<RunId, RunRow>, thread: ThreadRow, done: set<RunId>, t: ThreadId, now: int): ThreadRow {
    if exists r :: r in done && r in runs && runs[r].thread == t then thread.(updatedAt := now) else thread
  }

  lemma SweepEachIsSweepAll(db: Db, work: map<RunId, RunRow>, stamped: map<ThreadId, ThreadRow>,
                            candidates: set<RunId>, now: int)
    requires candidates == set r | r in db.runs && db.runs[r].status.Active()
    requires work == map r | r in db.runs :: if r in candidates then SweepRow(db.runs[r], now) else db.runs[r]
    requires stamped == map t | t in db.threads :: Stamp(db.runs, db.threads[t], candidates, t, now)
    ensures work == SweptRuns(db, now) && stamped == SweptThreads(db, now)
  {
    forall t | t in db.threads ensures stamped[t] == SweptThreads(db, now)[t] {
      assert (exists r :: r in candidates && r in db.runs && db.runs[r].thread == t) <==> ThreadBusy(db, t);
    }
  }

  lemma {:induction false} AttemptIndexStable(attempts: seq<AttemptRow>, id: string, a: AttemptRow)
    requires AttemptIndexOf(attempts, id).Some? && a.id == id
    ensures AttemptIndexOf(attempts[AttemptIndexOf(attempts, id).value := a], id) == AttemptIndexOf(attempts, id)
  {
    var i := AttemptIndexOf(attempts, id).value;
    if attempts[0].id != id {
      AttemptIndexStable(attempts[1..], id, a);
      assert attempts[i := a][1..] == attempts[1..][i - 1 := a];
    }
  }

  /** The idempotency key of a run finds that run. */
  lemma KeyOwner(db: Db, r: RunId)
    requires Keys(db) && r in db.runs
    ensures KeyTaken(db, db.runs[r].thread, db.runs[r].key) && RunWithKey(db, db.runs[r].thread, db.runs[r].key) == r
  {}
}
