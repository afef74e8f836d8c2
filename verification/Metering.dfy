/**
  The usage ledger against the attempt rows of its run, under every interleaving of attempts,
  observations, finishes, settlement, cancellation and other terminal writes.
*/
module Metering {
  import opened Common
  import opened RunRecords
  import opened UsageLedger

  /**
    Who holds the persistence lock. A settlement walks the live attempts: it fails if their number changes
    meanwhile.
  */
  datatype Holder = Free | Finishing(id: string) | Settling(todo: seq<string>, wanted: map<string, Tokens>, size: nat)

  /**
    `observed` remembers each usage seen before that attempt's finish began; `settled` remembers
    what had been seen when the last completed settlement began.
  */
  datatype Meter = Meter(
    memory: Memory, row: RunRow, holder: Holder, observed: map<string, Tokens>, settled: map<string, Tokens>)

  datatype MeterStep =
    | Begin(id: string, kind: CallKind, retryOf: Option<string>, now: int, confirmed: bool)
    | Observe(id: string, usage: Tokens)
    | RequestFinish(id: string, status: AttemptStatus)
    | LockFinish(id: string)
    | CommitFinish(now: int)
    | LockSettle
    | SettleNext(now: int)
    | SettleDone
    | WriteFails              // a finish or a settlement gives up; the lock is released
    | OtherWrite(op: RowOp)   // events and every other terminal write of the run
    | CancelCommits(outcome: Outcome, now: int)

  function RowTokens(usage: Option<Tokens>): Tokens { if usage.Some? then usage.value else NO_TOKENS }

  function FinishWrite(a: Attempt, id: string, now: int): RowOp
    requires a.pending.Some?
  {
    FinishAttempt(id, a.pending.value.status, RowTokens(a.pending.value.usage), now)
  }

  predicate Fresh(s: Meter, id: string) {
    id !in s.memory.attempts && AttemptIndexOf(s.row.attempts, id).None?
  }

  predicate PositionFree(row: RunRow, p: Position) {
    forall i :: 0 <= i < |row.attempts| ==>
      !(row.attempts[i].callIndex == p.callIndex && row.attempts[i].attemptIndex == p.attemptIndex)
  }

  /** A start whose caller was cancelled meanwhile leaves the row without the memory entry. */
  function BeginStep(s: Meter, id: string, kind: CallKind, retryOf: Option<string>, now: int, confirmed: bool): Meter {
    var p := NextPosition(s.memory, retryOf);
    if p.Err? || !Fresh(s, id) then s
    else
      var counted := s.(memory := CountCall(s.memory, retryOf));
      if !s.row.status.Running? || !s.row.metered || !PositionFree(s.row, p.value) then counted
      else
        var written := counted.(row := StartAttemptRow(s.row, id, p.value.callIndex, p.value.attemptIndex, kind, now));
        if confirmed then written.(memory := Begun(counted.memory, id, p.value, kind)) else written
  }

  function ObserveStep(s: Meter, id: string, usage: Tokens): Meter {
    var o := Observed(s.memory, id, usage);
    s.(memory := o.0,
       observed := if o.1.None? && s.memory.attempts[id].pending.None? then s.observed[id := usage] else s.observed)
  }

  function SettleOne(s: Meter, id: string, now: int): Meter {
    if Waiting(s.memory, id) then
      s.(memory := FinishPersisted(s.memory, id), row := ApplyRow(s.row, FinishWrite(s.memory.attempts[id], id, now)))
    else if MustRecord(s.memory, id) then
      s.(memory := UsageRecorded(s.memory, id), row := ApplyRow(s.row, RecordUsage(id, s.memory.attempts[id].usage.value)))
    else s
  }

  predicate TerminalWrite(op: RowOp) { op.Complete? || op.Fail? || op.Sweep? || op.Cancel? }

  function MeterNext(s: Meter, step: MeterStep): Meter {
    match step
    case Begin(id, kind, retryOf, now, confirmed) => BeginStep(s, id, kind, retryOf, now, confirmed)
    case Observe(id, usage) => ObserveStep(s, id, usage)
    case RequestFinish(id, status) =>
      if status.Open? || status.Interrupted? then s else s.(memory := FinishRequested(s.memory, id, status).0)
    case LockFinish(id) => if s.holder.Free? && Waiting(s.memory, id) then s.(holder := Finishing(id)) else s
    case CommitFinish(now) =>
      if s.holder.Finishing? && Waiting(s.memory, s.holder.id) then SettleOne(s, s.holder.id, now).(holder := Free) else s
    case LockSettle => if s.holder.Free? then s.(holder := Settling(s.memory.order, s.observed, |s.memory.order|)) else s
    case SettleNext(now) =>
      if !s.holder.Settling? || s.holder.todo == [] then s
      else if |s.memory.order| != s.holder.size then s.(holder := Free)
      else SettleOne(s, s.holder.todo[0], now).(holder := s.holder.(todo := s.holder.todo[1..]))
    case SettleDone =>
      if !s.holder.Settling? || s.holder.todo != [] then s
      else if |s.memory.order| != s.holder.size then s.(holder := Free)
      else s.(holder := Free, settled := s.holder.wanted)
    case WriteFails => s.(holder := Free)
    case OtherWrite(op) => if op.Start? || op.Append? || TerminalWrite(op) then s.(row := ApplyRow(s.row, op)) else s
    case CancelCommits(o, now) => s.(row := CancelRow(s.row, o, now))
  }

  function MeterTrace(s: Meter, steps: seq<MeterStep>): Meter {
    if steps == [] then s else MeterNext(MeterTrace(s, steps[..|steps| - 1]), steps[|steps| - 1])
  }

  function NewMeter(thread: ThreadId, key: string, plan: string, now: int): Meter {
    Meter(NO_ATTEMPTS, NewRow(thread, key, plan, now), Free, map[], map[])
  }

  // ----- the invariant -----

  /** The row of an attempt, by its id. */
  function RowAttempt(row: RunRow, id: string): Option<AttemptRow> {
    var at := AttemptIndexOf(row.attempts, id);
    if at.None? then None else Some(row.attempts[at.value])
  }

  /** The rows hold exactly this usage for the attempt. */
  predicate Recorded(row: RunRow, id: string, usage: Tokens) {
    RowAttempt(row, id).Some? && RowAttempt(row, id).value.tokens == usage
  }

  /** One attempt in memory against its row, while the run is active. */
  ghost predicate AttemptAgrees(s: Meter, id: string)
    requires id in s.memory.attempts
  {
    var a := s.memory.attempts[id];
    && RowAttempt(s.row, id).Some?
    && (a.status.Open? <==> RowAttempt(s.row, id).value.status.Open?)
    && (a.status.Open? && !a.usagePersisted ==> RowAttempt(s.row, id).value.tokens == NO_TOKENS)
    && (a.status.Open? && a.usagePersisted ==> a.usage.Some? && Recorded(s.row, id, a.usage.value))
    && (a.status.Open? && a.usagePersisted && a.pending.Some? ==> a.pending.value.usage == a.usage)
    && (!a.status.Open? ==> a.pending.None?)
    && (a.pending.Some? ==> !a.pending.value.status.Open?)
  }

  /** A usage seen before the finish began is what the finish will write, or has written. */
  ghost predicate ObservationSafe(s: Meter, id: string)
    requires id in s.observed
  {
    && id in s.memory.attempts
    && var a := s.memory.attempts[id];
       && a.usage == Some(s.observed[id])
       && (a.pending.Some? ==> a.pending.value.usage == a.usage)
       && (!a.status.Open? ==> Recorded(s.row, id, s.observed[id]))
  }

  /** A usage that must be in the rows from now on. */
  ghost predicate Secured(s: Meter, id: string, usage: Tokens) {
    && id in s.observed && s.observed[id] == usage
    && id in s.memory.attempts && (s.memory.attempts[id].usagePersisted || !s.memory.attempts[id].status.Open?)
    && Recorded(s.row, id, usage)
  }

  ghost predicate MeterInv(s: Meter) {
    && (forall id :: id in s.memory.order <==> id in s.memory.attempts)
    && (forall id :: id in s.memory.attempts ==> AttemptAgrees(s, id))
    && (forall id :: id in s.observed ==> ObservationSafe(s, id))
    && (forall id :: id in s.settled ==> Secured(s, id, s.settled[id]))
    && (s.holder.Settling? ==> forall id :: id in s.holder.wanted ==> WantedSafe(s, id))
  }

  ghost predicate WantedSafe(s: Meter, id: string)
    requires s.holder.Settling? && id in s.holder.wanted
  {
    && id in s.observed && s.observed[id] == s.holder.wanted[id]
    && (id !in s.holder.todo ==> Secured(s, id, s.holder.wanted[id]))
  }

  // ----- rows -----

  lemma {:induction false} IndexAfterUpdate(attempts: seq<AttemptRow>, at: nat, a: AttemptRow, id: string)
    requires at < |attempts| && a.id == attempts[at].id
    ensures AttemptIndexOf(attempts[at := a], id) == AttemptIndexOf(attempts, id)
  {
    var more := attempts[at := a];
    if attempts[0].id != id {
      if at == 0 {
        assert more[1..] == attempts[1..];
      } else {
        assert more[1..] == attempts[1..][at - 1 := a];
        IndexAfterUpdate(attempts[1..], at - 1, a, id);
      }
    }
  }

  lemma {:induction false} IndexAfterAppend(attempts: seq<AttemptRow>, a: AttemptRow, id: string)
    requires AttemptIndexOf(attempts, id).Some? || a.id != id
    ensures AttemptIndexOf(attempts + [a], id) == AttemptIndexOf(attempts, id)
  {
    if attempts == [] {
      assert attempts + [a] == [a];
    } else if attempts[0].id != id {
      assert (attempts + [a])[1..] == attempts[1..] + [a];
      IndexAfterAppend(attempts[1..], a, id);
    }
  }

  lemma {:induction false} IndexOfAppended(attempts: seq<AttemptRow>, a: AttemptRow)
    requires AttemptIndexOf(attempts, a.id).None?
    ensures AttemptIndexOf(attempts + [a], a.id) == Some(|attempts|)
  {
    if attempts == [] {
      assert attempts + [a] == [a];
    } else {
      assert (attempts + [a])[1..] == attempts[1..] + [a];
      IndexOfAppended(attempts[1..], a);
    }
  }

  /** Writing one open attempt changes its row and no other. */
  lemma FinishWrites(row: RunRow, id: string, status: AttemptStatus, tokens: Tokens, now: int, other: string)
    requires row.status.Active() && RowAttempt(row, id).Some? && RowAttempt(row, id).value.status.Open?
    ensures var next := FinishAttemptRow(row, id, status, tokens, now);
      RowAttempt(next, other) ==
        if other == id then Some(RowAttempt(row, id).value.(status := status, completedAt := Some(now), tokens := tokens))
        else RowAttempt(row, other)
  {
    var at := AttemptIndexOf(row.attempts, id).value;
    var a := row.attempts[at].(status := status, completedAt := Some(now), tokens := tokens);
    IndexAfterUpdate(row.attempts, at, a, other);
  }

  lemma RecordWrites(row: RunRow, id: string, tokens: Tokens, other: string)
    requires row.status.Active() && RowAttempt(row, id).Some? && RowAttempt(row, id).value.status.Open?
    requires RowAttempt(row, id).value.tokens == NO_TOKENS
    ensures RowAttempt(RecordUsageRow(row, id, tokens), other) ==
      if other == id then Some(RowAttempt(row, id).value.(tokens := tokens)) else RowAttempt(row, other)
  {
    var at := AttemptIndexOf(row.attempts, id).value;
    IndexAfterUpdate(row.attempts, at, row.attempts[at].(tokens := tokens), other);
  }

  lemma StartWrites(row: RunRow, id: string, p: Position, kind: CallKind, now: int, other: string)
    requires row.status.Running? && row.metered && AttemptIndexOf(row.attempts, id).None? && PositionFree(row, p)
    ensures RowAttempt(StartAttemptRow(row, id, p.callIndex, p.attemptIndex, kind, now), other) ==
      if other == id then Some(AttemptRow(id, p.callIndex, p.attemptIndex, kind, Open, now, None, NO_TOKENS))
      else RowAttempt(row, other)
  {
    var a := AttemptRow(id, p.callIndex, p.attemptIndex, kind, Open, now, None, NO_TOKENS);
    if other == id { IndexOfAppended(row.attempts, a); } else { IndexAfterAppend(row.attempts, a, other); }
  }

  /** A terminal write closes open attempts but never changes what they recorded. */
  lemma {:induction false} ClosedIndex(attempts: seq<AttemptRow>, status: AttemptStatus, at: int, id: string)
    ensures AttemptIndexOf(CloseOpen(attempts, status, at), id) == AttemptIndexOf(attempts, id)
  {
    if attempts != [] {
      assert CloseOpen(attempts, status, at)[1..] == CloseOpen(attempts[1..], status, at);
      ClosedIndex(attempts[1..], status, at, id);
    }
  }

  lemma CancelKeepsTokens(row: RunRow, o: Outcome, now: int, id: string, usage: Tokens)
    requires Recorded(row, id, usage)
    ensures Recorded(CancelRow(row, o, now), id, usage)
  {
    ClosedIndex(row.attempts, AttemptCancelled, now, id);
  }

  // ----- steps -----

  lemma SettleOneKeeps(s: Meter, id: string, now: int)
    requires MeterInv(s) && s.row.status.Active() && id in s.memory.attempts
    ensures var next := SettleOne(s, id, now);
      && MeterInv(next) && next.row.status.Active()
      && (id in s.observed ==> Secured(next, id, s.observed[id]))
  {
    assert AttemptAgrees(s, id);
    if id in s.observed { assert ObservationSafe(s, id); }
    if Waiting(s.memory, id) { PersistKeeps(s, id, now); }
    else if MustRecord(s.memory, id) { RecordKeeps(s, id); }
  }

  lemma PersistKeeps(s: Meter, id: string, now: int)
    requires MeterInv(s) && s.row.status.Active() && Waiting(s.memory, id)
    ensures var next := SettleOne(s, id, now);
      && MeterInv(next) && next.row.status.Active()
      && (id in s.observed ==> Secured(next, id, s.observed[id]))
  {
    var next := SettleOne(s, id, now);
    var a := s.memory.attempts[id];
    assert AttemptAgrees(s, id);
    forall other ensures RowAttempt(next.row, other) ==
      if other == id then Some(RowAttempt(s.row, id).value.(status := a.pending.value.status, completedAt := Some(now), tokens := RowTokens(a.pending.value.usage)))
      else RowAttempt(s.row, other)
    {
      FinishWrites(s.row, id, a.pending.value.status, RowTokens(a.pending.value.usage), now, other);
    }
    OneAttemptKeeps(s, next, id);
  }

  lemma RecordKeeps(s: Meter, id: string)
    requires MeterInv(s) && s.row.status.Active() && MustRecord(s.memory, id)
    ensures var next := SettleOne(s, id, 0);
      && MeterInv(next) && next.row.status.Active()
      && (id in s.observed ==> Secured(next, id, s.observed[id]))
  {
    var next := SettleOne(s, id, 0);
    assert AttemptAgrees(s, id);
    forall other ensures RowAttempt(next.row, other) ==
      if other == id then Some(RowAttempt(s.row, id).value.(tokens := s.memory.attempts[id].usage.value)) else RowAttempt(s.row, other)
    {
      RecordWrites(s.row, id, s.memory.attempts[id].usage.value, other);
    }
    OneAttemptKeeps(s, next, id);
  }

  /** A step that touches one attempt only. */
  ghost predicate TouchesOnly(s: Meter, next: Meter, id: string) {
    && next.memory.order == s.memory.order && next.memory.attempts.Keys == s.memory.attempts.Keys
    && next.observed == s.observed && next.settled == s.settled && next.holder == s.holder
    && (forall other :: other in s.memory.attempts && other != id ==> next.memory.attempts[other] == s.memory.attempts[other])
    && (forall other :: other != id ==> RowAttempt(next.row, other) == RowAttempt(s.row, other))
  }

  lemma SecuredKept(s: Meter, next: Meter, id: string, other: string)
    requires TouchesOnly(s, next, id) && other in s.observed && Secured(s, other, s.observed[other])
    requires id in s.observed && Secured(s, id, s.observed[id]) ==> Secured(next, id, s.observed[id])
    ensures Secured(next, other, s.observed[other])
  {}

  lemma OthersAgree(s: Meter, next: Meter, id: string)
    requires MeterInv(s) && TouchesOnly(s, next, id)
    ensures forall other :: other in next.memory.attempts && other != id ==> AttemptAgrees(next, other)
    ensures forall other :: other in next.observed && other != id ==> ObservationSafe(next, other)
  {
    forall other | other in next.memory.attempts && other != id ensures AttemptAgrees(next, other) {
      assert AttemptAgrees(s, other);
    }
    forall other | other in next.observed && other != id ensures ObservationSafe(next, other) {
      assert ObservationSafe(s, other);
    }
  }

  /** Such a step has only that attempt to answer for. */
  lemma OneAttemptKeeps(s: Meter, next: Meter, id: string)
    requires MeterInv(s) && id in s.memory.attempts && TouchesOnly(s, next, id)
    requires AttemptAgrees(next, id)
    requires id in s.observed ==> ObservationSafe(next, id)
    requires id in s.observed && Secured(s, id, s.observed[id]) ==> Secured(next, id, s.observed[id])
    ensures MeterInv(next)
  {
    OthersAgree(s, next, id);
    forall other | other in next.settled ensures Secured(next, other, next.settled[other]) {
      assert Secured(s, other, s.settled[other]);
      SecuredKept(s, next, id, other);
    }
    if next.holder.Settling? {
      forall other | other in next.holder.wanted ensures WantedSafe(next, other) {
        assert WantedSafe(s, other);
        if other !in s.holder.todo { SecuredKept(s, next, id, other); }
      }
    }
  }

  lemma BeginKeeps(s: Meter, id: string, kind: CallKind, retryOf: Option<string>, now: int, confirmed: bool)
    requires MeterInv(s) && s.row.status.Active()
    ensures var next := BeginStep(s, id, kind, retryOf, now, confirmed); MeterInv(next) && next.row.status.Active()
  {
    var p := NextPosition(s.memory, retryOf);
    if p.Ok? && Fresh(s, id) && s.row.status.Running? && s.row.metered && PositionFree(s.row, p.value) {
      BeginNew(s, id, p.value, kind, retryOf, now, confirmed);
    } else {
      BeginRefused(s, id, kind, retryOf, now, confirmed);
      SameAttemptsKeep(s, BeginStep(s, id, kind, retryOf, now, confirmed));
    }
  }

  lemma BeginNew(s: Meter, id: string, p: Position, kind: CallKind, retryOf: Option<string>, now: int, confirmed: bool)
    requires MeterInv(s) && NextPosition(s.memory, retryOf) == Ok(p) && Fresh(s, id)
    requires s.row.status.Running? && s.row.metered && PositionFree(s.row, p)
    ensures var next := BeginStep(s, id, kind, retryOf, now, confirmed); MeterInv(next) && next.row.status.Active()
  {
    BeginWrites(s, id, p, kind, retryOf, now, confirmed);
    BegunRow(s, id, p, kind, now);
    BegunMemory(CountCall(s.memory, retryOf), id, p, kind);
    NewAttemptKeeps(s, BeginStep(s, id, kind, retryOf, now, confirmed), id);
  }

  lemma BeginRefused(s: Meter, id: string, kind: CallKind, retryOf: Option<string>, now: int, confirmed: bool)
    requires var p := NextPosition(s.memory, retryOf);
      !(p.Ok? && Fresh(s, id) && s.row.status.Running? && s.row.metered && PositionFree(s.row, p.value))
    ensures var next := BeginStep(s, id, kind, retryOf, now, confirmed);
      SameAttempts(s, next) && next.row.status == s.row.status
  {}

  lemma BeginWrites(s: Meter, id: string, p: Position, kind: CallKind, retryOf: Option<string>, now: int,
                    confirmed: bool)
    requires NextPosition(s.memory, retryOf) == Ok(p) && Fresh(s, id)
    requires s.row.status.Running? && s.row.metered && PositionFree(s.row, p)
    ensures var next := BeginStep(s, id, kind, retryOf, now, confirmed); var m := CountCall(s.memory, retryOf);
      && next.memory == (if confirmed then Begun(m, id, p, kind) else m) && m == s.memory.(nextCall := m.nextCall)
      && next == s.(memory := next.memory, row := StartAttemptRow(s.row, id, p.callIndex, p.attemptIndex, kind, now))
      && next.row.status == s.row.status
  {}

  lemma BegunMemory(m: Memory, id: string, p: Position, kind: CallKind)
    requires id !in m.attempts
    ensures var next := Begun(m, id, p, kind);
      && next.attempts == m.attempts[id := Attempt(p.callIndex, p.attemptIndex, kind, Open, None, false, None)]
      && next.order == m.order + [id]
  {}

  lemma BegunRow(s: Meter, id: string, p: Position, kind: CallKind, now: int)
    requires s.row.status.Running? && s.row.metered
    requires AttemptIndexOf(s.row.attempts, id).None? && PositionFree(s.row, p)
    ensures var row := StartAttemptRow(s.row, id, p.callIndex, p.attemptIndex, kind, now);
      forall other :: RowAttempt(row, other) ==
        if other == id then Some(AttemptRow(id, p.callIndex, p.attemptIndex, kind, Open, now, None, NO_TOKENS))
        else RowAttempt(s.row, other)
  {
    forall other ensures RowAttempt(StartAttemptRow(s.row, id, p.callIndex, p.attemptIndex, kind, now), other) ==
      if other == id then Some(AttemptRow(id, p.callIndex, p.attemptIndex, kind, Open, now, None, NO_TOKENS))
      else RowAttempt(s.row, other)
    {
      StartWrites(s.row, id, p, kind, now, other);
    }
  }

  lemma NewAttemptKeeps(s: Meter, next: Meter, id: string)
    requires MeterInv(s) && id !in s.memory.attempts
    requires next.observed == s.observed && next.settled == s.settled && next.holder == s.holder
    requires forall other :: other in s.memory.attempts ==>
      other in next.memory.attempts && next.memory.attempts[other] == s.memory.attempts[other]
    requires next.memory.attempts.Keys <= s.memory.attempts.Keys + {id}
    requires forall other :: other in next.memory.order <==> other in next.memory.attempts
    requires forall other :: other != id ==> RowAttempt(next.row, other) == RowAttempt(s.row, other)
    requires id in next.memory.attempts ==> AttemptAgrees(next, id)
    ensures MeterInv(next)
  {
    forall other | other in next.memory.attempts ensures AttemptAgrees(next, other) {
      if other != id { assert AttemptAgrees(s, other); }
    }
    forall other | other in next.observed ensures ObservationSafe(next, other) {
      assert ObservationSafe(s, other);
    }
    forall other | other in next.settled ensures Secured(next, other, next.settled[other]) {
      assert Secured(s, other, s.settled[other]);
    }
    if next.holder.Settling? {
      forall other | other in next.holder.wanted ensures WantedSafe(next, other) {
        assert WantedSafe(s, other);
      }
    }
  }

  /** A step that leaves the attempts, the rows of attempts and the observations alone. */
  /** At most the holder of the persistence lock changed, or a completed settlement is remembered. */
  ghost predicate SameAttempts(s: Meter, next: Meter) {
    && next.row.attempts == s.row.attempts
    && next.memory.attempts == s.memory.attempts && next.memory.order == s.memory.order && next.observed == s.observed
    && (next.settled == s.settled || (s.holder.Settling? && s.holder.todo == [] && next.settled == s.holder.wanted))
    && (next.holder == s.holder || !next.holder.Settling? || next.holder == Settling(s.memory.order, s.observed, |s.memory.order|))
  }

  lemma SameAttemptsKeep(s: Meter, next: Meter)
    requires MeterInv(s) && SameAttempts(s, next)
    ensures MeterInv(next)
  {
    forall other | other in next.memory.attempts ensures AttemptAgrees(next, other) { assert AttemptAgrees(s, other); }
    forall other | other in next.observed ensures ObservationSafe(next, other) { assert ObservationSafe(s, other); }
    forall other | other in next.settled ensures Secured(next, other, next.settled[other]) {
      if next.settled == s.settled { assert Secured(s, other, s.settled[other]); } else { assert WantedSafe(s, other); }
    }
    if next.holder.Settling? {
      forall other | other in next.holder.wanted ensures WantedSafe(next, other) {
        if next.holder == s.holder { assert WantedSafe(s, other); } else { assert ObservationSafe(s, other); }
      }
    }
  }

  /** A first observation enters memory; if no finish has begun, it is remembered as observed. */
  lemma FirstObservationKeeps(s: Meter, id: string, usage: Tokens)
    requires MeterInv(s) && id in s.memory.attempts
    requires s.memory.attempts[id].status.Open? && s.memory.attempts[id].usage.None?
    ensures MeterInv(s.(memory := Observed(s.memory, id, usage).0)) && id !in s.observed
  {
    var next := s.(memory := Observed(s.memory, id, usage).0);
    assert AttemptAgrees(s, id);
    assert id in s.observed ==> ObservationSafe(s, id);
    OneAttemptKeeps(s, next, id);
  }

  lemma RememberKeeps(s: Meter, id: string)
    requires MeterInv(s) && id in s.memory.attempts && id !in s.observed
    requires s.memory.attempts[id].status.Open? && s.memory.attempts[id].pending.None?
    requires s.memory.attempts[id].usage.Some?
    ensures MeterInv(s.(observed := s.observed[id := s.memory.attempts[id].usage.value]))
  {
    var next := s.(observed := s.observed[id := s.memory.attempts[id].usage.value]);
    forall other | other in next.memory.attempts ensures AttemptAgrees(next, other) { assert AttemptAgrees(s, other); }
    forall other | other in next.observed ensures ObservationSafe(next, other) {
      if other != id { assert ObservationSafe(s, other); }
    }
    forall other | other in next.settled ensures Secured(next, other, next.settled[other]) {
      assert Secured(s, other, s.settled[other]);
    }
    if next.holder.Settling? {
      forall other | other in next.holder.wanted ensures WantedSafe(next, other) { assert WantedSafe(s, other); }
    }
  }

  lemma ObserveKeeps(s: Meter, id: string, usage: Tokens)
    requires MeterInv(s)
    ensures MeterInv(ObserveStep(s, id, usage))
  {
    var next := ObserveStep(s, id, usage);
    if id in s.memory.attempts && Observed(s.memory, id, usage).1.None? {
      var mid := s.(memory := Observed(s.memory, id, usage).0);
      if s.memory.attempts[id].usage.None? { FirstObservationKeeps(s, id, usage); }
      if id in s.observed {
        assert ObservationSafe(s, id);
        assert next.observed == s.observed;
      } else if s.memory.attempts[id].pending.None? {
        RememberKeeps(mid, id);
      }
    }
  }

  lemma RequestKeeps(s: Meter, id: string, status: AttemptStatus)
    requires MeterInv(s) && !status.Open?
    ensures MeterInv(s.(memory := FinishRequested(s.memory, id, status).0))
  {
    var next := s.(memory := FinishRequested(s.memory, id, status).0);
    if id in s.memory.attempts && s.memory.attempts[id].status.Open? && s.memory.attempts[id].pending.None? {
      assert AttemptAgrees(s, id);
      if id in s.observed { assert ObservationSafe(s, id); }
      OneAttemptKeeps(s, next, id);
    }
  }

  lemma SettleNextKeeps(s: Meter, now: int)
    requires MeterInv(s) && s.row.status.Active() && s.holder.Settling? && s.holder.todo != []
    ensures var next := MeterNext(s, SettleNext(now)); MeterInv(next) && next.row.status.Active()
  {
    if |s.memory.order| != s.holder.size {
      HolderOnlyKeeps(s, Free);
    } else {
      var id := s.holder.todo[0];
      SettleAny(s, id, now);
      var mid := SettleOne(s, id, now);
      SettledHead(mid, mid.(holder := s.holder.(todo := s.holder.todo[1..])), id);
    }
  }

  /** Settling one id, known or not, secures what was observed of it. */
  lemma SettleAny(s: Meter, id: string, now: int)
    requires MeterInv(s) && s.row.status.Active()
    ensures var mid := SettleOne(s, id, now);
      && MeterInv(mid) && mid.row.status.Active() && mid.holder == s.holder
      && (id in mid.observed ==> Secured(mid, id, mid.observed[id]))
  {
    if id in s.observed { assert ObservationSafe(s, id); }
    if id in s.memory.attempts { SettleOneKeeps(s, id, now); }
  }

  lemma HolderOnlyKeeps(s: Meter, holder: Holder)
    requires MeterInv(s)
    requires holder.Settling? ==> forall other :: other in holder.wanted ==> WantedSafe(s.(holder := holder), other)
    ensures MeterInv(s.(holder := holder))
  {
    var next := s.(holder := holder);
    forall other | other in next.memory.attempts ensures AttemptAgrees(next, other) { assert AttemptAgrees(s, other); }
    forall other | other in next.observed ensures ObservationSafe(next, other) { assert ObservationSafe(s, other); }
    forall other | other in next.settled ensures Secured(next, other, next.settled[other]) {
      assert Secured(s, other, s.settled[other]);
    }
  }

  /** The head of the list is secured, so the rest of the settlement need not visit it again. */
  lemma SettledHead(mid: Meter, next: Meter, id: string)
    requires MeterInv(mid) && mid.holder.Settling? && mid.holder.todo != [] && mid.holder.todo[0] == id
    requires id in mid.observed ==> Secured(mid, id, mid.observed[id])
    requires next == mid.(holder := mid.holder.(todo := mid.holder.todo[1..]))
    ensures MeterInv(next)
  {
    forall other | other in next.holder.wanted ensures WantedSafe(next, other) {
      assert WantedSafe(mid, other);
      if other !in mid.holder.todo[1..] && other in mid.holder.todo { assert other == id; }
    }
    HolderOnlyKeeps(mid, next.holder);
  }

  lemma CommitFinishKeeps(s: Meter, now: int)
    requires MeterInv(s) && s.row.status.Active() && s.holder.Finishing? && Waiting(s.memory, s.holder.id)
    ensures var next := MeterNext(s, CommitFinish(now)); MeterInv(next) && next.row.status.Active()
  {
    var mid := SettleOne(s, s.holder.id, now);
    SettleOneKeeps(s, s.holder.id, now);
    assert MeterNext(s, CommitFinish(now)) == mid.(holder := Free);
    SameAttemptsKeep(mid, mid.(holder := Free));
  }

  /** Every step keeps the ledger and its rows in agreement as long as the run is active. */
  lemma MeterStepKeeps(s: Meter, step: MeterStep)
    requires s.row.status.Active() ==> MeterInv(s)
    ensures MeterNext(s, step).row.status.Active() ==> s.row.status.Active() && MeterInv(MeterNext(s, step))
  {
    var next := MeterNext(s, step);
    if next.row.status.Active() {
      StillActive(s, step);
      match step
      case Begin(id, kind, retryOf, now, confirmed) => BeginKeeps(s, id, kind, retryOf, now, confirmed);
      case Observe(id, usage) => ObserveKeeps(s, id, usage);
      case RequestFinish(id, status) => if !status.Open? && !status.Interrupted? { RequestKeeps(s, id, status); }
      case CommitFinish(now) =>
        if s.holder.Finishing? && Waiting(s.memory, s.holder.id) { CommitFinishKeeps(s, now); }
      case SettleNext(now) => if s.holder.Settling? && s.holder.todo != [] { SettleNextKeeps(s, now); }
      case _ => LockStepKeeps(s, step);
    }
  }

  lemma LockStepKeeps(s: Meter, step: MeterStep)
    requires MeterInv(s) && MeterNext(s, step).row.status.Active()
    requires step.LockFinish? || step.LockSettle? || step.SettleDone? || step.WriteFails? || step.OtherWrite? || step.CancelCommits?
    ensures MeterInv(MeterNext(s, step))
  {
    match step
    case OtherWrite(op) =>
      if op.Start? || op.Append? || TerminalWrite(op) {
        WriteLeavesAttempts(s.row, op);
        RowOnlyKeeps(s, ApplyRow(s.row, op));
      }
    case CancelCommits(o, now) => RowOnlyKeeps(s, CancelRow(s.row, o, now));
    case _ => HoldStepKeeps(s, step);
  }

  lemma HoldStepKeeps(s: Meter, step: MeterStep)
    requires MeterInv(s)
    requires step.LockFinish? || step.LockSettle? || step.SettleDone? || step.WriteFails?
    ensures MeterInv(MeterNext(s, step))
  {
    HoldStepSame(s, step);
    SameAttemptsKeep(s, MeterNext(s, step));
  }

  lemma HoldStepSame(s: Meter, step: MeterStep)
    requires step.LockFinish? || step.LockSettle? || step.SettleDone? || step.WriteFails?
    ensures SameAttempts(s, MeterNext(s, step))
  {}

  lemma RowOnlyKeeps(s: Meter, row: RunRow)
    requires MeterInv(s) && row.attempts == s.row.attempts
    ensures MeterInv(s.(row := row))
  {
    SameAttemptsKeep(s, s.(row := row));
  }

  /** A write that leaves the run active leaves its attempts alone. */
  lemma WriteLeavesAttempts(row: RunRow, op: RowOp)
    requires (op.Start? || op.Append? || TerminalWrite(op)) && ApplyRow(row, op).status.Active()
    ensures row.status.Active() && ApplyRow(row, op).attempts == row.attempts
  {}

  /** No step revives a terminal run. */
  lemma StillActive(s: Meter, step: MeterStep)
    requires MeterNext(s, step).row.status.Active()
    ensures s.row.status.Active()
  {
    if !s.row.status.Active() { TerminalStays(s, step); }
  }

  lemma TerminalStays(s: Meter, step: MeterStep)
    requires !s.row.status.Active()
    ensures MeterNext(s, step).row == s.row
  {
    match step
    case OtherWrite(op) => TerminalRowFrozen(s.row, op);
    case CancelCommits(o, now) => TerminalRowFrozen(s.row, RowOp.Cancel(o, now));
    case _ =>
  }

  lemma {:induction false} MeterTraceInv(thread: ThreadId, key: string, plan: string, now: int, steps: seq<MeterStep>)
    ensures var s := MeterTrace(NewMeter(thread, key, plan, now), steps); s.row.status.Active() ==> MeterInv(s)
  {
    if steps != [] {
      MeterTraceInv(thread, key, plan, now, steps[..|steps| - 1]);
      MeterStepKeeps(MeterTrace(NewMeter(thread, key, plan, now), steps[..|steps| - 1]), steps[|steps| - 1]);
    }
  }

  // ----- main results -----

  /**
    When a cancellation wins, the frozen rows hold every usage that had been observed, before
    its attempt's finish began, by the time the last completed settlement started.
  */
  lemma CancelCountsWhatWasObserved(thread: ThreadId, key: string, plan: string, now: int, steps: seq<MeterStep>,
                                    o: Outcome, at: int)
    ensures var s := MeterTrace(NewMeter(thread, key, plan, now), steps);
      s.row.status.Active() ==>
        forall id :: id in s.settled ==> Recorded(MeterNext(s, CancelCommits(o, at)).row, id, s.settled[id])
  {
    MeterTraceInv(thread, key, plan, now, steps);
    var s := MeterTrace(NewMeter(thread, key, plan, now), steps);
    if s.row.status.Active() {
      CancelRecords(s, o, at);
    }
  }

  lemma CancelRecords(s: Meter, o: Outcome, at: int)
    requires MeterInv(s)
    ensures forall id :: id in s.settled ==> Recorded(MeterNext(s, CancelCommits(o, at)).row, id, s.settled[id])
  {
    assert s.(settled := s.settled) == s;
    forall id | id in s.settled ensures Recorded(MeterNext(s, CancelCommits(o, at)).row, id, s.settled[id]) {
      CancelRecordsOne(s, s.settled, o, at, id);
    }
  }

  /** The steps a settlement does not take itself; another settlement or its own end would have to wait or end it. */
  predicate Meanwhile(step: MeterStep) { !step.WriteFails? && !step.SettleDone? && !step.LockSettle? }

  /** A completed settlement covers exactly what had been observed when it began, whatever happened meanwhile. */
  lemma SettlementCovers(s: Meter, during: seq<MeterStep>)
    requires s.holder.Free? && forall i :: 0 <= i < |during| ==> Meanwhile(during[i])
    ensures var t := MeterTrace(MeterNext(s, LockSettle), during);
      t.holder.Settling? && t.holder.todo == [] && |t.memory.order| == t.holder.size ==>
        MeterNext(t, SettleDone).settled == s.observed
  {
    SettlingKeepsWanted(MeterNext(s, LockSettle), during);
  }

  lemma {:induction false} SettlingKeepsWanted(s: Meter, during: seq<MeterStep>)
    requires s.holder.Settling? && forall i :: 0 <= i < |during| ==> Meanwhile(during[i])
    ensures var h := MeterTrace(s, during).holder; h.Settling? ==> h.wanted == s.holder.wanted
  {
    if during != [] {
      SettlingKeepsWanted(s, during[..|during| - 1]);
      if MeterTrace(s, during).holder.Settling? { WantedStays(MeterTrace(s, during[..|during| - 1]), during[|during| - 1]); }
    }
  }

  lemma WantedStays(s: Meter, step: MeterStep)
    requires Meanwhile(step) && MeterNext(s, step).holder.Settling?
    ensures s.holder.Settling? && MeterNext(s, step).holder.wanted == s.holder.wanted
  {}

  lemma {:induction false} TraceJoin(s: Meter, a: seq<MeterStep>, b: seq<MeterStep>)
    ensures MeterTrace(s, a + b) == MeterTrace(MeterTrace(s, a), b)
  {
    if b == [] {
      assert a + b == a;
    } else {
      assert (a + b)[..|a + b| - 1] == a + b[..|b| - 1];
      TraceJoin(s, a, b[..|b| - 1]);
    }
  }

  lemma TraceOne(s: Meter, step: MeterStep)
    ensures MeterTrace(s, [step]) == MeterNext(s, step)
  {
    assert [step][..0] == [];
  }

  /** What has been secured stays so as long as the run is active, whatever later settlements remember. */
  lemma SecuredStays(s: Meter, secured: map<string, Tokens>, step: MeterStep)
    requires s.row.status.Active() ==> MeterInv(s.(settled := secured))
    ensures var next := MeterNext(s, step);
      next.row.status.Active() ==> s.row.status.Active() && MeterInv(next.(settled := secured))
  {
    var with, next := s.(settled := secured), MeterNext(s, step);
    if next.row.status.Active() {
      StillActive(s, step);
      if step.SettleDone? {
        HolderOnlyKeeps(with, Free);
      } else {
        SettledIsRemembered(s, secured, step);
        MeterStepKeeps(with, step);
      }
    }
  }

  /** No step but the end of a settlement looks at or changes what is remembered as settled. */
  lemma SettledIsRemembered(s: Meter, secured: map<string, Tokens>, step: MeterStep)
    requires !step.SettleDone?
    ensures MeterNext(s.(settled := secured), step) == MeterNext(s, step).(settled := secured)
  {}

  lemma {:induction false} SecuredForGood(s: Meter, secured: map<string, Tokens>, steps: seq<MeterStep>)
    requires s.row.status.Active() ==> MeterInv(s.(settled := secured))
    ensures var t := MeterTrace(s, steps);
      t.row.status.Active() ==> s.row.status.Active() && MeterInv(t.(settled := secured))
  {
    if steps != [] {
      SecuredForGood(s, secured, steps[..|steps| - 1]);
      SecuredStays(MeterTrace(s, steps[..|steps| - 1]), secured, steps[|steps| - 1]);
    }
  }

  /**
    A cancel that holds the execution: it locks, settles to the end, and its write wins later. Every
    usage that had been observed when it locked, before that attempt's finish began, is in the rows.
  */
  lemma WinningCancelRecordsWhatItSettled(thread: ThreadId, key: string, plan: string, now: int, pre: seq<MeterStep>,
                                          during: seq<MeterStep>, between: seq<MeterStep>, o: Outcome, at: int, id: string)
    requires var s := MeterTrace(NewMeter(thread, key, plan, now), pre); s.holder.Free? && id in s.observed
    requires forall i :: 0 <= i < |during| ==> Meanwhile(during[i])
    requires var t := MeterTrace(NewMeter(thread, key, plan, now), pre + [LockSettle] + during);
      t.holder.Settling? && t.holder.todo == [] && |t.memory.order| == t.holder.size
    requires MeterTrace(NewMeter(thread, key, plan, now), pre + [LockSettle] + during + [SettleDone] + between).row.status.Active()
    ensures var s := MeterTrace(NewMeter(thread, key, plan, now), pre);
      var end := MeterTrace(NewMeter(thread, key, plan, now), pre + [LockSettle] + during + [SettleDone] + between);
      Recorded(MeterNext(end, CancelCommits(o, at)).row, id, s.observed[id])
  {
    var start := NewMeter(thread, key, plan, now);
    var s, done := MeterTrace(start, pre), MeterTrace(start, pre + [LockSettle] + during + [SettleDone]);
    SettledTrace(start, pre, during);
    MeterTraceInv(thread, key, plan, now, pre + [LockSettle] + during + [SettleDone]);
    TraceJoin(start, pre + [LockSettle] + during + [SettleDone], between);
    CancelAfterSettlement(done, between, o, at, id);
  }

  /** From a completed settlement on, whatever else happens, a cancel that wins finds what was settled in the rows. */
  lemma CancelAfterSettlement(done: Meter, between: seq<MeterStep>, o: Outcome, at: int, id: string)
    requires done.row.status.Active() ==> MeterInv(done)
    requires id in done.settled && MeterTrace(done, between).row.status.Active()
    ensures Recorded(MeterNext(MeterTrace(done, between), CancelCommits(o, at)).row, id, done.settled[id])
  {
    assert done.(settled := done.settled) == done;
    SecuredForGood(done, done.settled, between);
    CancelRecordsOne(MeterTrace(done, between), done.settled, o, at, id);
  }

  lemma CancelRecordsOne(s: Meter, secured: map<string, Tokens>, o: Outcome, at: int, id: string)
    requires MeterInv(s.(settled := secured)) && id in secured
    ensures Recorded(MeterNext(s, CancelCommits(o, at)).row, id, secured[id])
  {
    assert Secured(s.(settled := secured), id, secured[id]);
    CancelKeepsTokens(s.row, o, at, id, secured[id]);
  }

  lemma SettledTrace(start: Meter, pre: seq<MeterStep>, during: seq<MeterStep>)
    requires MeterTrace(start, pre).holder.Free? && forall i :: 0 <= i < |during| ==> Meanwhile(during[i])
    requires var t := MeterTrace(start, pre + [LockSettle] + during);
      t.holder.Settling? && t.holder.todo == [] && |t.memory.order| == t.holder.size
    ensures MeterTrace(start, pre + [LockSettle] + during + [SettleDone]).settled == MeterTrace(start, pre).observed
  {
    TraceJoin(start, pre, [LockSettle]);
    TraceOne(MeterTrace(start, pre), LockSettle);
    TraceJoin(start, pre + [LockSettle], during);
    TraceJoin(start, pre + [LockSettle] + during, [SettleDone]);
    TraceOne(MeterTrace(start, pre + [LockSettle] + during), SettleDone);
    SettlementCovers(MeterTrace(start, pre), during);
  }

  /**
    Settling one attempt records the usage the ledger holds exactly when its finish has not
    begun, or began with that usage: a usage seen after the finish began is lost.
  */
  lemma LateObservationIsLost(s: Meter, id: string, now: int)
    requires MeterInv(s) && s.row.status.Active() && id in s.memory.attempts
    requires s.memory.attempts[id].status.Open? && s.memory.attempts[id].usage.Some?
    requires s.memory.attempts[id].usage.value != NO_TOKENS
    ensures var a := s.memory.attempts[id];
      Recorded(SettleOne(s, id, now).row, id, a.usage.value) <==> a.pending.None? || RowTokens(a.pending.value.usage) == a.usage.value
  {
    var a := s.memory.attempts[id];
    assert AttemptAgrees(s, id);
    if a.pending.Some? {
      FinishWrites(s.row, id, a.pending.value.status, RowTokens(a.pending.value.usage), now, id);
    } else if !a.usagePersisted {
      RecordWrites(s.row, id, a.usage.value, id);
    }
  }

  lemma TraceFour(s: Meter, a: MeterStep, b: MeterStep, c: MeterStep, d: MeterStep)
    ensures MeterTrace(s, [a, b, c, d]) == MeterNext(MeterNext(MeterNext(MeterNext(s, a), b), c), d)
  {
    TraceOne(s, a);
    TraceJoin(s, [a], [b]);
    TraceJoin(s, [a, b], [c]);
    TraceJoin(s, [a, b, c], [d]);
    TraceOne(MeterTrace(s, [a]), b);
    TraceOne(MeterTrace(s, [a, b]), c);
    TraceOne(MeterTrace(s, [a, b, c]), d);
    assert [a] + [b] == [a, b] && [a, b] + [c] == [a, b, c] && [a, b, c] + [d] == [a, b, c, d];
  }

  /** The ledger lets it happen: an attempt finishes, its usage arrives late, and settling leaves it out of the rows. */
  lemma LateObservationExample(usage: Tokens)
    requires usage != NO_TOKENS
    ensures var s := MeterTrace(NewMeter("t", "k", "plan", 0), [
        OtherWrite(Start), Begin("a", Direct, None, 0, true), RequestFinish("a", Succeeded), Observe("a", usage)]);
      && s.row.status.Active() && "a" in s.memory.attempts && s.memory.attempts["a"].usage == Some(usage)
      && "a" !in s.observed && !Recorded(SettleOne(s, "a", 1).row, "a", usage)
  {
    var steps := [OtherWrite(Start), Begin("a", Direct, None, 0, true), RequestFinish("a", Succeeded), Observe("a", usage)];
    var s0 := NewMeter("t", "k", "plan", 0);
    TraceFour(s0, steps[0], steps[1], steps[2], steps[3]);
    MeterTraceInv("t", "k", "plan", 0, steps);
    var s2 := MeterNext(MeterNext(s0, steps[0]), steps[1]);
    AttemptBegins();
    LateObservation(s2, usage);
    LateObservationIsLost(MeterNext(MeterNext(s2, steps[2]), steps[3]), "a", 1);
  }

  lemma AttemptBegins()
    ensures var s := MeterNext(MeterNext(NewMeter("t", "k", "plan", 0), OtherWrite(Start)), Begin("a", Direct, None, 0, true));
      && s.row.status.Running? && s.observed == map[]
      && s.memory.attempts == map["a" := Attempt(1, 1, Direct, Open, None, false, None)]
  {
    var s := MeterNext(NewMeter("t", "k", "plan", 0), OtherWrite(Start));
    assert s.row.status.Running? && s.row.attempts == [] && s.memory == NO_ATTEMPTS;
  }

  lemma LateObservation(s: Meter, usage: Tokens)
    requires s.memory.attempts == map["a" := Attempt(1, 1, Direct, Open, None, false, None)] && s.observed == map[]
    ensures var t := MeterNext(MeterNext(s, RequestFinish("a", Succeeded)), Observe("a", usage));
      && t.row == s.row && t.observed == map[] && "a" in t.memory.attempts
      && t.memory.attempts["a"] == Attempt(1, 1, Direct, Open, Some(usage), false, Some(Finish(Succeeded, None)))
  {
    var t := MeterNext(s, RequestFinish("a", Succeeded));
    assert t.memory.attempts["a"].pending == Some(Finish(Succeeded, None));
  }
}
