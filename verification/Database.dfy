/**
  The product database: threads, runs and messages, the atomic transactions over
  them, and what every sequence of transactions keeps.
*/
module Database {
  import opened Common
  import opened RunRecords
  import opened FrozenUsage

  datatype Role = User | Assistant

  datatype MessageRow = MessageRow(id: string, thread: ThreadId, run: RunId, role: Role, content: string, createdAt: int)

  datatype ThreadRow = ThreadRow(createdAt: int, updatedAt: int)

  datatype Db = Db(threads: map<ThreadId, ThreadRow>, runs: map<RunId, RunRow>, messages: seq<MessageRow>)

  const EMPTY := Db(map[], map[], [])

  // ----- the unique constraints -----

  predicate KeyTaken(db: Db, t: ThreadId, key: string) {
    exists r :: r in db.runs && db.runs[r].thread == t && db.runs[r].key == key
  }

  predicate ThreadBusy(db: Db, t: ThreadId) {
    exists r :: r in db.runs && db.runs[r].thread == t && db.runs[r].status.Active()
  }

  /** No primary key, idempotency or one-active-run constraint stands against the new run. */
  predicate InsertAllowed(db: Db, r: RunId, t: ThreadId, key: string) {
    r !in db.runs && t in db.threads && !KeyTaken(db, t, key) && !ThreadBusy(db, t)
  }

  datatype Op =
    | CreateThread(thread: ThreadId, now: int)
    | InsertRun(run: RunId, thread: ThreadId, key: string, plan: string, messageId: string, text: string, now: int)
    | InsertInitial(run: RunId, thread: ThreadId, key: string, plan: string, messageId: string, text: string, now: int)
    | OnRun(run: RunId, op: RowOp)
    | SweepAll(now: int)

  function WithRun(db: Db, op: Op): Db
    requires op.InsertRun? || op.InsertInitial?
  {
    db.(runs := db.runs[op.run := NewRow(op.thread, op.key, op.plan, op.now)],
        messages := db.messages + [MessageRow(op.messageId, op.thread, op.run, User, op.text, op.now)])
  }

  /** The assistant message a winning completion adds. */
  function Answer(db: Db, r: RunId, op: RowOp): seq<MessageRow>
    requires r in db.runs
  {
    if op.Complete? && db.runs[r].status.Running?
    then [MessageRow(op.messageId, db.runs[r].thread, r, Assistant, op.content, op.now)]
    else []
  }

  function Touch(db: Db, t: ThreadId, now: int): map<ThreadId, ThreadRow> {
    if t in db.threads then db.threads[t := db.threads[t].(updatedAt := now)] else db.threads
  }

  function RowOpTime(op: RowOp): Option<int> {
    match op
    case Complete(_, _, _, now) => Some(now)
    case Fail(_, _, _, now) => Some(now)
    case Cancel(_, now) => Some(now)
    case Sweep(now) => Some(now)
    case _ => None
  }

  /** A transaction on one run: the row, the answer message, and the thread's time on a terminal write. */
  function ApplyOnRun(db: Db, r: RunId, op: RowOp): Db
    requires r in db.runs
  {
    var row := db.runs[r];
    var next := ApplyRow(row, op);
    Db(if row.status.Active() && !next.status.Active() && RowOpTime(op).Some?
         then Touch(db, row.thread, RowOpTime(op).value) else db.threads,
       db.runs[r := next],
       db.messages + Answer(db, r, op))
  }

  function SweptRuns(db: Db, now: int): (runs: map<RunId, RunRow>) {
    map r | r in db.runs :: SweepRow(db.runs[r], now)
  }

  function SweptThreads(db: Db, now: int): map<ThreadId, ThreadRow> {
    map t | t in db.threads :: if ThreadBusy(db, t) then db.threads[t].(updatedAt := now) else db.threads[t]
  }

  function Swept(db: Db, now: int): Db { Db(SweptThreads(db, now), SweptRuns(db, now), db.messages) }

  /** One atomic transaction; a violated constraint or an unknown run leaves the database unchanged. */
  function Apply(db: Db, op: Op): Db {
    match op
    case CreateThread(t, now) => if t in db.threads then db else db.(threads := db.threads[t := ThreadRow(now, now)])
    case InsertRun(r, t, key, _, _, _, now) =>
      if InsertAllowed(db, r, t, key) then WithRun(db, op).(threads := Touch(db, t, now)) else db
    case InsertInitial(r, t, key, _, _, _, now) =>
      if t in db.threads || r in db.runs then db
      else WithRun(db, op).(threads := db.threads[t := ThreadRow(now, now)])
    case OnRun(r, rowOp) => if r in db.runs then ApplyOnRun(db, r, rowOp) else db
    case SweepAll(now) => Swept(db, now)
  }

  ghost predicate OpWellFormed(op: Op) {
    op.OnRun? ==> WellFormed(op.op) && !op.op.Sweep?
  }

  function ApplyAll(db: Db, ops: seq<Op>): Db {
    if ops == [] then db else Apply(ApplyAll(db, ops[..|ops| - 1]), ops[|ops| - 1])
  }

  lemma ApplyOne(db: Db, op: Op)
    ensures ApplyAll(db, [op]) == Apply(db, op)
  {
    assert [op][..0] == [];
    assert ApplyAll(db, [op][..0]) == db;
  }

  ghost predicate AllWellFormed(ops: seq<Op>) {
    forall i :: 0 <= i < |ops| ==> OpWellFormed(ops[i])
  }

  // ----- the database invariant -----

  predicate Of(m: MessageRow, r: RunId, role: Role) { m.run == r && m.role == role }

  function MessagesOf(db: Db, r: RunId, role: Role): seq<MessageRow> {
    Filter(db.messages, (m: MessageRow) => Of(m, r, role))
  }

  /** The answer a log announces in its message.completed event. */
  function AnnouncedAnswer(row: RunRow): Option<string> {
    if |row.events| >= 2 && row.events[|row.events| - 2].payload.MessageCompleted?
    then Some(row.events[|row.events| - 2].payload.content) else None
  }

  ghost predicate MessagesMatch(db: Db, r: RunId)
    requires r in db.runs
  {
    var row := db.runs[r];
    var answers := MessagesOf(db, r, Assistant);
    && |MessagesOf(db, r, User)| == 1
    && (row.status.Completed? ==> |answers| == 1 && AnnouncedAnswer(row) == Some(answers[0].content))
    && (!row.status.Completed? ==> answers == [])
  }

  ghost predicate Keys(db: Db) {
    && (forall r :: r in db.runs ==> db.runs[r].thread in db.threads)
    && (forall r, s :: r in db.runs && s in db.runs && r != s && db.runs[r].thread == db.runs[s].thread ==>
         db.runs[r].key != db.runs[s].key)
    && (forall r, s :: r in db.runs && s in db.runs && r != s && db.runs[r].thread == db.runs[s].thread ==>
         !(db.runs[r].status.Active() && db.runs[s].status.Active()))
  }

  ghost predicate References(db: Db) {
    forall i :: 0 <= i < |db.messages| ==>
      db.messages[i].run in db.runs && db.messages[i].thread == db.runs[db.messages[i].run].thread
  }

  ghost predicate RowsOk(db: Db) { forall r :: r in db.runs ==> RowInv(db.runs[r]) }

  ghost predicate DbInv(db: Db) {
    && RowsOk(db)
    && (forall r :: r in db.runs ==> MessagesMatch(db, r))
    && Keys(db)
    && References(db)
  }

  lemma MessagesOfAppend(db: Db, more: Db, r: RunId, role: Role, added: seq<MessageRow>)
    requires more.messages == db.messages + added
    ensures MessagesOf(more, r, role) == MessagesOf(db, r, role) + Filter(added, (m: MessageRow) => Of(m, r, role))
  {
    FilterConcat(db.messages, added, (m: MessageRow) => Of(m, r, role));
  }

  lemma NoMessagesOfUnknown(db: Db, r: RunId, role: Role)
    requires References(db) && r !in db.runs
    ensures MessagesOf(db, r, role) == []
  {
    FilterNone(db.messages, (m: MessageRow) => Of(m, r, role));
  }

  lemma InsertKeepsMessages(db: Db, next: Db, r: RunId, row: RunRow, added: MessageRow)
    requires References(db) && r !in db.runs
    requires forall s :: s in db.runs ==> MessagesMatch(db, s)
    requires next.runs == db.runs[r := row] && next.messages == db.messages + [added]
    requires row.status.Created? && added.run == r && added.role.User? && added.thread == row.thread
    ensures References(next)
    ensures forall s :: s in next.runs ==> MessagesMatch(next, s)
  {
    forall s | s in next.runs ensures MessagesMatch(next, s) {
      MessagesOfAppend(db, next, s, User, [added]);
      MessagesOfAppend(db, next, s, Assistant, [added]);
      FilterNone([added][1..], (m: MessageRow) => Of(m, s, User));
      FilterNone([added], (m: MessageRow) => Of(m, s, Assistant));
      if s == r {
        NoMessagesOfUnknown(db, r, User);
        NoMessagesOfUnknown(db, r, Assistant);
      } else {
        assert MessagesMatch(db, s);
        FilterNone([added], (m: MessageRow) => Of(m, s, User));
      }
    }
  }

  lemma InsertKeepsInv(db: Db, op: Op)
    requires DbInv(db) && (op.InsertRun? || op.InsertInitial?)
    ensures DbInv(Apply(db, op))
  {
    var next := Apply(db, op);
    InsertKeepsKeys(db, op);
    if op.run in next.runs && op.run !in db.runs {
      var row := NewRow(op.thread, op.key, op.plan, op.now);
      NewRowInv(op.thread, op.key, op.plan, op.now);
      OneRowChanges(db, next, op.run, row);
      InsertKeepsMessages(db, next, op.run, row, MessageRow(op.messageId, op.thread, op.run, User, op.text, op.now));
    } else {
      assert next == db;
    }
  }

  lemma InsertKeepsKeys(db: Db, op: Op)
    requires Keys(db) && (op.InsertRun? || op.InsertInitial?)
    ensures Keys(Apply(db, op))
  {
    if Apply(db, op) != db {
      if op.InsertRun? {
        assert !KeyTaken(db, op.thread, op.key) && !ThreadBusy(db, op.thread);
      }
      NewKeyKeeps(db, Apply(db, op), op.run, NewRow(op.thread, op.key, op.plan, op.now));
    }
  }

  lemma NewKeyKeeps(db: Db, next: Db, r: RunId, row: RunRow)
    requires Keys(db) && r !in db.runs && next.runs == db.runs[r := row]
    requires row.thread in next.threads && db.threads.Keys <= next.threads.Keys
    requires forall s :: s in db.runs && db.runs[s].thread == row.thread ==> db.runs[s].key != row.key && !db.runs[s].status.Active()
    ensures Keys(next)
  {}

  lemma AnnouncedStable(row: RunRow, op: RowOp)
    requires RowInv(row) && WellFormed(op)
    ensures var next := ApplyRow(row, op);
      && (next.status.Completed? && !row.status.Completed? ==> row.status.Running? && op.Complete? && AnnouncedAnswer(next) == Some(op.content))
      && (row.status.Completed? ==> next == row)
      && (op.Complete? && row.status.Running? ==> next.status.Completed?)
  {}

  lemma UpdateKeepsMessages(db: Db, next: Db, r: RunId, row: RunRow, added: seq<MessageRow>)
    requires References(db) && r in db.runs
    requires forall s :: s in db.runs ==> MessagesMatch(db, s)
    requires next.runs == db.runs[r := row] && next.messages == db.messages + added
    requires row.thread == db.runs[r].thread
    requires added == [] ==> row.status.Completed? == db.runs[r].status.Completed?
    requires added == [] && row.status.Completed? ==> row == db.runs[r]
    requires added != [] ==> (|added| == 1 && Of(added[0], r, Assistant) && added[0].thread == row.thread
      && !db.runs[r].status.Completed? && row.status.Completed? && AnnouncedAnswer(row) == Some(added[0].content))
    ensures References(next)
    ensures forall s :: s in next.runs ==> MessagesMatch(next, s)
  {
    forall s | s in next.runs ensures MessagesMatch(next, s) {
      MessagesOfAppend(db, next, s, User, added);
      MessagesOfAppend(db, next, s, Assistant, added);
      assert MessagesMatch(db, s);
      FilterNone(added, (m: MessageRow) => Of(m, s, User));
      if s == r && added != [] {
        FilterNone(added[1..], (m: MessageRow) => Of(m, s, Assistant));
      } else {
        FilterNone(added, (m: MessageRow) => Of(m, s, Assistant));
      }
    }
  }

  lemma UpdateKeepsKeys(db: Db, next: Db, r: RunId, row: RunRow)
    requires Keys(db) && r in db.runs
    requires next.runs == db.runs[r := row] && next.threads.Keys == db.threads.Keys
    requires row.thread == db.runs[r].thread && row.key == db.runs[r].key
    requires row.status.Active() ==> db.runs[r].status.Active()
    ensures Keys(next)
  {}

  lemma OnRunRow(db: Db, r: RunId, op: RowOp)
    requires r in db.runs && RowInv(db.runs[r]) && WellFormed(op)
    ensures var row := ApplyRow(db.runs[r], op); var added := Answer(db, r, op);
      && RowInv(row) && row.thread == db.runs[r].thread && row.key == db.runs[r].key
      && (row.status.Active() ==> db.runs[r].status.Active())
      && (added == [] ==> row.status.Completed? == db.runs[r].status.Completed?)
      && (added == [] && row.status.Completed? ==> row == db.runs[r])
      && (added != [] ==> !db.runs[r].status.Completed? && row.status.Completed? && AnnouncedAnswer(row) == Some(op.content))
  {
    RowInvKept(db.runs[r], op);
    RowGrows(db.runs[r], op);
    StaysTerminal(db.runs[r], op);
    AnnouncedStable(db.runs[r], op);
  }

  lemma OneRowChanges(db: Db, next: Db, r: RunId, row: RunRow)
    requires RowsOk(db) && RowInv(row) && next.runs == db.runs[r := row]
    ensures RowsOk(next)
  {
    forall s | s in next.runs ensures RowInv(next.runs[s]) {
      if s != r { assert next.runs[s] == db.runs[s]; }
    }
  }

  lemma OnRunKeepsMessages(db: Db, r: RunId, op: RowOp)
    requires References(db) && r in db.runs && RowInv(db.runs[r]) && WellFormed(op)
    requires forall s :: s in db.runs ==> MessagesMatch(db, s)
    ensures References(ApplyOnRun(db, r, op))
    ensures forall s :: s in ApplyOnRun(db, r, op).runs ==> MessagesMatch(ApplyOnRun(db, r, op), s)
  {
    OnRunRow(db, r, op);
    UpdateKeepsMessages(db, ApplyOnRun(db, r, op), r, ApplyRow(db.runs[r], op), Answer(db, r, op));
  }

  lemma OnRunKeepsKeys(db: Db, r: RunId, op: RowOp)
    requires Keys(db) && r in db.runs && RowInv(db.runs[r]) && WellFormed(op)
    ensures Keys(ApplyOnRun(db, r, op))
  {
    OnRunShape(db, r, op);
    RowGrows(db.runs[r], op);
    StaysTerminal(db.runs[r], op);
    UpdateKeepsKeys(db, ApplyOnRun(db, r, op), r, ApplyRow(db.runs[r], op));
  }

  lemma OnRunShape(db: Db, r: RunId, op: RowOp)
    requires r in db.runs
    ensures var next := ApplyOnRun(db, r, op);
      && next.runs == db.runs[r := ApplyRow(db.runs[r], op)] && next.messages == db.messages + Answer(db, r, op)
      && next.threads.Keys == db.threads.Keys
  {}

  lemma OnRunKeepsRows(db: Db, r: RunId, op: RowOp)
    requires RowsOk(db) && r in db.runs && WellFormed(op)
    ensures RowsOk(ApplyOnRun(db, r, op))
  {
    RowInvKept(db.runs[r], op);
    OneRowChanges(db, ApplyOnRun(db, r, op), r, ApplyRow(db.runs[r], op));
  }

  lemma OnRunKeepsInv(db: Db, r: RunId, op: RowOp)
    requires DbInv(db) && WellFormed(op) && r in db.runs
    ensures DbInv(ApplyOnRun(db, r, op))
  {
    OnRunKeepsRows(db, r, op);
    OnRunKeepsMessages(db, r, op);
    OnRunKeepsKeys(db, r, op);
  }

  lemma StaysTerminal(row: RunRow, op: RowOp)
    ensures ApplyRow(row, op).status.Active() ==> row.status.Active()
  {}

  /** What the sweep makes of a row: ended, and unchanged if it had a result. */
  ghost predicate SweptInto(row: RunRow, next: RunRow) {
    && RowInv(next) && next.thread == row.thread && next.key == row.key
    && (row.status.Completed? ==> next == row) && (!row.status.Completed? ==> !next.status.Completed?)
    && !next.status.Active()
  }

  lemma SweepRowFacts(row: RunRow, now: int)
    requires RowInv(row)
    ensures SweptInto(row, SweepRow(row, now))
  {
    RowInvKept(row, Sweep(now));
    RowGrows(row, Sweep(now));
    AnnouncedStable(row, Sweep(now));
  }

  ghost predicate AllSweptInto(db: Db, next: Db) {
    && next.messages == db.messages && next.runs.Keys == db.runs.Keys && next.threads.Keys == db.threads.Keys
    && forall r :: r in db.runs ==> SweptInto(db.runs[r], next.runs[r])
  }

  lemma SweepFacts(db: Db, now: int)
    requires RowsOk(db)
    ensures AllSweptInto(db, Swept(db, now))
  {
    forall r | r in db.runs ensures SweptInto(db.runs[r], Swept(db, now).runs[r]) { SweepRowFacts(db.runs[r], now); }
  }

  lemma SweptKeepsInv(db: Db, next: Db)
    requires DbInv(db) && AllSweptInto(db, next)
    ensures DbInv(next)
  {
    forall r | r in db.runs ensures RowInv(next.runs[r]) && MessagesMatch(next, r) {
      assert SweptInto(db.runs[r], next.runs[r]) && MessagesMatch(db, r);
    }
    SweptKeepsKeys(db, next);
  }

  lemma SweptKeepsKeys(db: Db, next: Db)
    requires Keys(db) && References(db) && AllSweptInto(db, next)
    ensures Keys(next) && References(next)
  {
    forall r | r in db.runs ensures next.runs[r].thread == db.runs[r].thread && next.runs[r].key == db.runs[r].key
      && !next.runs[r].status.Active() {
      assert SweptInto(db.runs[r], next.runs[r]);
    }
  }

  lemma SweepKeepsInv(db: Db, now: int)
    requires DbInv(db)
    ensures DbInv(Swept(db, now)) && Apply(db, SweepAll(now)) == Swept(db, now)
    ensures forall r :: r in db.runs ==> !Swept(db, now).runs[r].status.Active()
  {
    SweepFacts(db, now);
    SweptKeepsInv(db, Swept(db, now));
    assert forall r :: r in db.runs ==> SweptInto(db.runs[r], Swept(db, now).runs[r]);
  }

  /** Every transaction, from any state, keeps the invariant. */
  lemma InvKept(db: Db, op: Op)
    requires DbInv(db) && OpWellFormed(op)
    ensures DbInv(Apply(db, op))
  {
    match op
    case CreateThread(t, now) => {
      var next := Apply(db, op);
      forall r | r in next.runs ensures MessagesMatch(next, r) { assert MessagesMatch(db, r); }
    }
    case InsertRun(_, _, _, _, _, _, _) => InsertKeepsInv(db, op);
    case InsertInitial(_, _, _, _, _, _, _) => InsertKeepsInv(db, op);
    case OnRun(r, rowOp) => if r in db.runs { OnRunKeepsInv(db, r, rowOp); }
    case SweepAll(now) => SweepKeepsInv(db, now);
  }

  /** Every interleaving of transactions of any number of workers, cancels and sweeps keeps the invariant. */
  lemma {:induction false} ReachableInv(db: Db, ops: seq<Op>)
    requires DbInv(db) && AllWellFormed(ops)
    ensures DbInv(ApplyAll(db, ops))
  {
    if ops != [] {
      ReachableInv(db, ops[..|ops| - 1]);
      InvKept(ApplyAll(db, ops[..|ops| - 1]), ops[|ops| - 1]);
    }
  }

  lemma EmptyInv()
    ensures DbInv(EMPTY)
  {}

  /**
    The log of every run in every reachable state: numbered 1 to `lastSeq`, replaying to the stored
    status, with at most one terminal event, which is last, and an answer event exactly when the
    run completed, just before its terminal event.
  */
  lemma ReachableLog(ops: seq<Op>, r: RunId, i: nat)
    requires AllWellFormed(ops) && r in ApplyAll(EMPTY, ops).runs
    ensures var row := ApplyAll(EMPTY, ops).runs[r];
      && |row.events| == row.lastSeq && Replay(row.events) == row.status
      && (i < row.lastSeq ==> row.events[i].seqNo == i + 1)
      && (i < row.lastSeq ==> (row.events[i].payload.Terminal() <==> !row.status.Active() && i == row.lastSeq - 1))
      && (i < row.lastSeq ==> (row.events[i].payload.MessageCompleted? <==> row.status.Completed? && i == row.lastSeq - 2))
  {
    EmptyInv();
    ReachableInv(EMPTY, ops);
    RowOk(ApplyAll(EMPTY, ops), r);
  }

  lemma RowOk(db: Db, r: RunId)
    requires RowsOk(db) && r in db.runs
    ensures RowInv(db.runs[r])
  {}

  /**
    Frozen usage of a metered run that ended: no attempt is open, and the stored usage says field by
    field what the attempt rows and the run's own times say; the terminal event carries the same usage.
  */
  ghost predicate UsageAgrees(row: RunRow) {
    && (forall i :: 0 <= i < |row.attempts| ==> !row.attempts[i].status.Open?)
    && row.completedAt.Some? && row.usage.Some? && UsageTotals(row.usage.value, row, row.completedAt.value)
    && row.usage.value == TerminalRunUsage(row, row.completedAt.value, row.usage.value.category)
    && TerminalEventUsage(row.events) == row.usage
  }

  lemma UsageMeans(row: RunRow)
    requires RowInv(row) && !row.status.Active() && row.metered
    ensures UsageAgrees(row)
  {
    TerminalUsageMeans(row, row.completedAt.value, row.usage.value.category);
  }

  /** In every reachable database the usage of every metered run that ended is in agreement. */
  lemma ReachableUsage(ops: seq<Op>, r: RunId)
    requires AllWellFormed(ops) && r in ApplyAll(EMPTY, ops).runs
    ensures var row := ApplyAll(EMPTY, ops).runs[r]; !row.status.Active() && row.metered ==> UsageAgrees(row)
  {
    EmptyInv();
    ReachableInv(EMPTY, ops);
    var row := ApplyAll(EMPTY, ops).runs[r];
    RowOk(ApplyAll(EMPTY, ops), r);
    if !row.status.Active() && row.metered { UsageMeans(row); }
  }

  /** One active run per thread at most, and one run per idempotency key, in every reachable state. */
  lemma ReachableKeys(ops: seq<Op>, a: RunId, b: RunId)
    requires AllWellFormed(ops)
    requires var db := ApplyAll(EMPTY, ops); a in db.runs && b in db.runs && a != b && db.runs[a].thread == db.runs[b].thread
    ensures var db := ApplyAll(EMPTY, ops);
      db.runs[a].key != db.runs[b].key && !(db.runs[a].status.Active() && db.runs[b].status.Active())
  {
    EmptyInv();
    ReachableInv(EMPTY, ops);
  }

  /** Runs are never deleted or renamed, their logs only grow, and a terminal run never changes again. */
  lemma {:induction false} HistoryKept(db: Db, ops: seq<Op>, r: RunId)
    requires r in db.runs
    ensures var later := ApplyAll(db, ops);
      && r in later.runs
      && later.runs[r].thread == db.runs[r].thread && later.runs[r].key == db.runs[r].key
      && later.runs[r].plan == db.runs[r].plan
      && db.runs[r].events <= later.runs[r].events
      && (!db.runs[r].status.Active() ==> later.runs[r] == db.runs[r])
      && (later.runs[r].status.Active() ==> db.runs[r].status.Active())
  {
    if ops != [] {
      var before := ApplyAll(db, ops[..|ops| - 1]);
      HistoryKept(db, ops[..|ops| - 1], r);
      StepKeepsHistory(before, ops[|ops| - 1], r);
    }
  }

  lemma StepKeepsHistory(db: Db, op: Op, r: RunId)
    requires r in db.runs
    ensures var later := Apply(db, op);
      && r in later.runs
      && later.runs[r].thread == db.runs[r].thread && later.runs[r].key == db.runs[r].key
      && later.runs[r].plan == db.runs[r].plan
      && db.runs[r].events <= later.runs[r].events
      && (!db.runs[r].status.Active() ==> later.runs[r] == db.runs[r])
      && (later.runs[r].status.Active() ==> db.runs[r].status.Active())
  {
    match op
    case OnRun(s, rowOp) =>
      if s == r {
        RowGrows(db.runs[r], rowOp);
        StaysTerminal(db.runs[r], rowOp);
        if !db.runs[r].status.Active() { TerminalRowFrozen(db.runs[r], rowOp); }
      }
    case SweepAll(now) =>
      RowGrows(db.runs[r], Sweep(now));
      StaysTerminal(db.runs[r], Sweep(now));
    case _ =>
  }

  /** What one row sees of any transaction is a row transaction or nothing. */
  lemma RowLocality(db: Db, op: Op, r: RunId)
    requires r in db.runs
    ensures r in Apply(db, op).runs
    ensures Apply(db, op).runs[r] == (
      if op.OnRun? && op.run == r then ApplyRow(db.runs[r], op.op)
      else if op.SweepAll? then ApplyRow(db.runs[r], Sweep(op.now))
      else db.runs[r])
  {}
}
