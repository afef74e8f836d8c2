/**
  Run admission under concurrent callers: a lookup, an insert arbitrated by the
  unique constraints, and a re-read, each at its own moment.
*/
module Admission {
  import opened Common
  import opened RunRecords
  import opened Database

  datatype AdmissionError = ThreadNotFound | ActiveRunConflict | InitialThreadExists | IdempotencyMismatch | IntegrityError

  /** The admitted run, and whether this call created it. */
  datatype Admitted = Admitted(run: RunId, created: bool)

  type AdmissionResult = Result<Admitted, AdmissionError>

  ghost predicate Holds(db: Db, r: RunId, t: ThreadId, key: string) {
    r in db.runs && db.runs[r].thread == t && db.runs[r].key == key
  }

  ghost function RunWithKey(db: Db, t: ThreadId, key: string): (r: RunId)
    requires KeyTaken(db, t, key)
    ensures Holds(db, r, t, key)
  {
    var r :| r in db.runs && db.runs[r].thread == t && db.runs[r].key == key; r
  }

  // ----- create_run -----

  datatype Lookup = NoThread | Existing(run: RunId) | Busy | Free

  ghost function LookupRun(db: Db, t: ThreadId, key: string): Lookup {
    if t !in db.threads then NoThread
    else if KeyTaken(db, t, key) then Existing(RunWithKey(db, t, key))
    else if ThreadBusy(db, t) then Busy
    else Free
  }

  /** The answer of one call whose lookup, insert and re-read see three moments of the database. */
  ghost function CreateRun(atLookup: Db, atInsert: Db, atReread: Db, r: RunId, t: ThreadId,
                           key: string): AdmissionResult {
    match LookupRun(atLookup, t, key)
    case NoThread => Err(ThreadNotFound)
    case Existing(e) => Ok(Admitted(e, false))
    case Busy => Err(ActiveRunConflict)
    case Free =>
      if InsertAllowed(atInsert, r, t, key) then Ok(Admitted(r, true))
      else
        match LookupRun(atReread, t, key)
        case NoThread => Err(ThreadNotFound)
        case Existing(e) => Ok(Admitted(e, false))
        case Busy => Err(ActiveRunConflict)
        case Free => Err(IntegrityError)
  }

  /** The three ways into a thread at one moment: its key is taken, it is busy, or it is free. */
  ghost predicate OpenFor(db: Db, t: ThreadId, key: string) {
    t in db.threads && !KeyTaken(db, t, key) && !ThreadBusy(db, t)
  }

  /** The insert is refused: the id or the key is taken, or another run of the thread is active. */
  ghost predicate Blocked(db: Db, r: RunId, t: ThreadId, key: string) {
    || t !in db.threads || r in db.runs
    || (exists o :: o in db.runs && db.runs[o].thread == t && (db.runs[o].key == key || db.runs[o].status.Active()))
  }

  /**
    Every answer of `create_run`, for any three moments: the missing thread, the conflict with a run that
    is active while the key is free, the run that owns the key, the new run, or the raw constraint error.
  */
  lemma AnswersIff(db: Db, atInsert: Db, atReread: Db, r: RunId, t: ThreadId, key: string)
    requires t in db.threads ==> t in atInsert.threads && t in atReread.threads
    ensures var a := CreateRun(db, atInsert, atReread, r, t, key);
      var retried := OpenFor(db, t, key) && Blocked(atInsert, r, t, key);
      && (a == Err(ThreadNotFound) <==> t !in db.threads)
      && (a == Err(ActiveRunConflict) <==>
           || (t in db.threads && !KeyTaken(db, t, key) && ThreadBusy(db, t))
           || (retried && !KeyTaken(atReread, t, key) && ThreadBusy(atReread, t)))
      && (a == Err(IntegrityError) <==> retried && OpenFor(atReread, t, key))
      && (a.Ok? && a.value.created <==> OpenFor(db, t, key) && !Blocked(atInsert, r, t, key))
      && (a.Ok? && !a.value.created <==>
           (t in db.threads && KeyTaken(db, t, key)) || (retried && KeyTaken(atReread, t, key)))
      && (a.Ok? ==> if a.value.created then a.value.run == r
                    else Holds(if KeyTaken(db, t, key) then db else atReread, a.value.run, t, key))
  {}

  lemma {:induction false} ThreadsPersist(db: Db, ops: seq<Op>, t: ThreadId)
    requires t in db.threads
    ensures t in ApplyAll(db, ops).threads
  {
    if ops != [] { ThreadsPersist(db, ops[..|ops| - 1], t); }
  }

  /** A key names one run forever: the run that first holds it still does, and no other ever will. */
  lemma KeyNamesOneRun(db: Db, ops: seq<Op>, r: RunId, other: RunId)
    requires DbInv(db) && AllWellFormed(ops) && r in db.runs
    ensures Holds(ApplyAll(db, ops), r, db.runs[r].thread, db.runs[r].key)
    ensures ApplyAll(db, ops).runs[r].plan == db.runs[r].plan
    ensures Holds(ApplyAll(db, ops), other, db.runs[r].thread, db.runs[r].key) ==> other == r
  {
    HistoryKept(db, ops, r);
    ReachableInv(db, ops);
  }

  /** Whatever runs between the three moments, the answer is about the run that owns the key at the end. */
  lemma CreateRunAnswersKeyOwner(db: Db, before: seq<Op>, after: seq<Op>, r: RunId, t: ThreadId, key: string,
                                 plan: string, messageId: string, text: string, now: int)
    ensures var insert := InsertRun(r, t, key, plan, messageId, text, now);
      var atInsert := ApplyAll(db, before);
      var atReread := ApplyAll(Apply(atInsert, insert), after);
      var answer := CreateRun(db, atInsert, atReread, r, t, key);
      && (answer.Ok? ==> Holds(atReread, answer.value.run, t, key))
      && (answer.Ok? && answer.value.created ==>
           answer.value.run == r && r !in atInsert.runs && !KeyTaken(atInsert, t, key))
      && (answer.Ok? && !answer.value.created && LookupRun(db, t, key).Existing? ==>
           answer.value.run in db.runs && atReread.runs[answer.value.run].plan == db.runs[answer.value.run].plan)
  {
    var insert := InsertRun(r, t, key, plan, messageId, text, now);
    var atInsert := ApplyAll(db, before);
    var stored := Apply(atInsert, insert);
    match LookupRun(db, t, key)
    case Existing(e) => {
      HistoryKept(db, before, e);
      StepKeepsHistory(atInsert, insert, e);
      HistoryKept(stored, after, e);
    }
    case Free => if InsertAllowed(atInsert, r, t, key) { HistoryKept(stored, after, r); }
    case _ =>
  }

  predicate Inserts(op: Op, db: Db, t: ThreadId, key: string) {
    (op.InsertRun? || op.InsertInitial?) && op.thread == t && op.key == key && op.run !in db.runs && op.run in Apply(db, op).runs
  }

  /** `created` is answered at most once per key: after one successful insert no later one succeeds. */
  lemma CreatedAtMostOnce(db: Db, first: Op, between: seq<Op>, second: Op, t: ThreadId, key: string)
    requires Inserts(first, db, t, key)
    ensures !Inserts(second, ApplyAll(Apply(db, first), between), t, key)
  {
    var stored := Apply(db, first);
    HistoryKept(stored, between, first.run);
    ThreadsPersist(stored, between, t);
    assert Holds(ApplyAll(stored, between), first.run, t, key);
    assert KeyTaken(ApplyAll(stored, between), t, key);
  }

  lemma KeyStaysTaken(db: Db, ops: seq<Op>, t: ThreadId, key: string)
    requires KeyTaken(db, t, key)
    ensures KeyTaken(ApplyAll(db, ops), t, key)
  {
    var r := RunWithKey(db, t, key);
    HistoryKept(db, ops, r);
  }

  /**
    With a fresh run id, the constraint error reaches the caller exactly when the
    run that blocked the insert ended before the re-read and nobody took the key.
  */
  lemma IntegrityErrorEscapesIff(db: Db, before: seq<Op>, after: seq<Op>, r: RunId, t: ThreadId, key: string)
    requires r !in ApplyAll(db, before).runs
    ensures var atInsert := ApplyAll(db, before);
      var atReread := ApplyAll(atInsert, after);
      CreateRun(db, atInsert, atReread, r, t, key) == Err(IntegrityError)
      <==> && t in db.threads && !ThreadBusy(db, t)
           && ThreadBusy(atInsert, t)
           && !KeyTaken(atReread, t, key) && !ThreadBusy(atReread, t)
  {
    var atInsert := ApplyAll(db, before);
    if t in db.threads {
      ThreadsPersist(db, before, t);
      ThreadsPersist(atInsert, after, t);
    }
    if KeyTaken(db, t, key) { KeyStaysTaken(db, before, t, key); }
    if KeyTaken(atInsert, t, key) { KeyStaysTaken(atInsert, after, t, key); }
  }

  /** The escape is real: another caller's run starts and is cancelled around this caller's insert. */
  lemma IntegrityErrorExample()
    ensures var db := Apply(EMPTY, CreateThread("t", 0));
      var before := [InsertRun("other", "t", "k0", "plan", "m0", "hi", 1)];
      var after := [OnRun("other", RowOp.Cancel(Outcome(Cancelled, "user_cancelled", None, None, [], [], NotRun), 2))];
      CreateRun(db, ApplyAll(db, before), ApplyAll(ApplyAll(db, before), after), "mine", "t", "k1") == Err(IntegrityError)
  {
    var db := Apply(EMPTY, CreateThread("t", 0));
    var before := [InsertRun("other", "t", "k0", "plan", "m0", "hi", 1)];
    var after := [OnRun("other", RowOp.Cancel(Outcome(Cancelled, "user_cancelled", None, None, [], [], NotRun), 2))];
    var atInsert := ApplyAll(db, before);
    ApplyOne(db, before[0]);
    assert atInsert.runs["other"].status.Active() && atInsert.runs["other"].thread == "t";
    assert ThreadBusy(atInsert, "t");
    var atReread := ApplyAll(atInsert, after);
    ApplyOne(atInsert, after[0]);
    assert forall x :: x in atReread.runs ==> x == "other";
    assert atReread.runs["other"].status.Cancelled? && atReread.runs["other"].key == "k0";
    assert "k0"[1] != "k1"[1];
  }

  // ----- create_initial_run -----

  ghost function FirstQuestion(db: Db, r: RunId): string
    requires r in db.runs && MessagesMatch(db, r)
  {
    MessagesOf(db, r, User)[0].content
  }

  /** An existing thread answers only its own key with its own text. */
  ghost function ResolveReplay(db: Db, t: ThreadId, key: string, text: string): AdmissionResult
    requires DbInv(db)
  {
    if !KeyTaken(db, t, key) then Err(InitialThreadExists)
    else
      var r := RunWithKey(db, t, key);
      if FirstQuestion(db, r) != text then Err(IdempotencyMismatch) else Ok(Admitted(r, false))
  }

  ghost function CreateInitialRun(atLookup: Db, atInsert: Db, atReread: Db, r: RunId, t: ThreadId, key: string,
                                  text: string): AdmissionResult
    requires DbInv(atLookup) && DbInv(atInsert) && DbInv(atReread)
  {
    if t in atLookup.threads then ResolveReplay(atLookup, t, key, text)
    else if t !in atInsert.threads && r !in atInsert.runs then Ok(Admitted(r, true))
    else if t !in atReread.threads then Err(IntegrityError)
    else ResolveReplay(atReread, t, key, text)
  }

  /**
    Every answer of `create_initial_run`: a thread that exists is answered only for its own key and its own
    question.
  */
  lemma InitialAnswersIff(db: Db, atInsert: Db, atReread: Db, r: RunId, t: ThreadId, key: string, text: string)
    requires DbInv(db) && DbInv(atInsert) && DbInv(atReread) && r !in atInsert.runs
    requires (t in db.threads ==> t in atInsert.threads) && (t in atInsert.threads ==> t in atReread.threads)
    ensures var a := CreateInitialRun(db, atInsert, atReread, r, t, key, text);
      var seen := if t in db.threads then db else atReread;
      && (a.Ok? && a.value.created <==> t !in atInsert.threads)
      && (a == Err(InitialThreadExists) <==> t in atInsert.threads && !KeyTaken(seen, t, key))
      && (a == Err(IdempotencyMismatch) <==>
           && t in atInsert.threads && KeyTaken(seen, t, key)
           && FirstQuestion(seen, RunWithKey(seen, t, key)) != text)
      && (a.Ok? && !a.value.created ==>
           Holds(seen, a.value.run, t, key) && FirstQuestion(seen, a.value.run) == text)
      && (a.Ok? && a.value.created ==> a.value.run == r)
  {}

  lemma InitialQuestion(db: Db, op: Op)
    requires DbInv(db) && op.InsertInitial? && op.thread !in db.threads && op.run !in db.runs
    ensures MessagesOf(Apply(db, op), op.run, User) == [MessageRow(op.messageId, op.thread, op.run, User, op.text, op.now)]
  {
    var added := MessageRow(op.messageId, op.thread, op.run, User, op.text, op.now);
    MessagesOfAppend(db, Apply(db, op), op.run, User, [added]);
    NoMessagesOfUnknown(db, op.run, User);
    FilterNone([added][1..], (m: MessageRow) => Of(m, op.run, User));
  }

  lemma InsertQuestion(db: Db, op: Op)
    requires DbInv(db) && op.InsertRun? && InsertAllowed(db, op.run, op.thread, op.key)
    ensures MessagesOf(Apply(db, op), op.run, User) == [MessageRow(op.messageId, op.thread, op.run, User, op.text, op.now)]
  {
    var added := MessageRow(op.messageId, op.thread, op.run, User, op.text, op.now);
    MessagesOfAppend(db, Apply(db, op), op.run, User, [added]);
    NoMessagesOfUnknown(db, op.run, User);
    FilterNone([added][1..], (m: MessageRow) => Of(m, op.run, User));
  }

  /** No later transaction touches the question of a run. */
  lemma {:induction false} QuestionKept(db: Db, ops: seq<Op>, r: RunId)
    requires r in db.runs
    ensures MessagesOf(ApplyAll(db, ops), r, User) == MessagesOf(db, r, User)
  {
    if ops != [] {
      QuestionKept(db, ops[..|ops| - 1], r);
      HistoryKept(db, ops[..|ops| - 1], r);
      StepKeepsQuestion(ApplyAll(db, ops[..|ops| - 1]), ops[|ops| - 1], r);
    }
  }

  lemma StepKeepsQuestion(db: Db, op: Op, r: RunId)
    requires r in db.runs
    ensures MessagesOf(Apply(db, op), r, User) == MessagesOf(db, r, User)
  {
    var added := Added(db, op);
    MessagesOfAppend(db, Apply(db, op), r, User, added);
    FilterNone(added, (m: MessageRow) => Of(m, r, User));
  }

  /** The messages a transaction adds. */
  function Added(db: Db, op: Op): (more: seq<MessageRow>)
    ensures Apply(db, op).messages == db.messages + more
    ensures forall i, r :: 0 <= i < |more| && r in db.runs ==> !Of(more[i], r, User)
  {
    Apply(db, op).messages[|db.messages|..]
  }

  /** The question a committed run was asked stays its question, under every later schedule. */
  lemma QuestionStays(db: Db, op: Op, later: seq<Op>)
    requires DbInv(db)
    requires (op.InsertRun? && InsertAllowed(db, op.run, op.thread, op.key))
          || (op.InsertInitial? && op.thread !in db.threads && op.run !in db.runs)
    ensures MessagesOf(ApplyAll(Apply(db, op), later), op.run, User)
         == [MessageRow(op.messageId, op.thread, op.run, User, op.text, op.now)]
  {
    if op.InsertRun? { InsertQuestion(db, op); } else { InitialQuestion(db, op); }
    QuestionKept(Apply(db, op), later, op.run);
  }

  /** Thread, run and question are committed together or not at all. */
  lemma InitialAllOrNothing(db: Db, op: Op)
    requires DbInv(db) && op.InsertInitial?
    ensures var next := Apply(db, op);
      if op.thread in db.threads || op.run in db.runs then next == db
      else && next.threads.Keys == db.threads.Keys + {op.thread} && next.runs.Keys == db.runs.Keys + {op.run}
           && Holds(next, op.run, op.thread, op.key)
           && next.runs[op.run].plan == Some(op.plan) && next.runs[op.run].status.Created?
           && |next.messages| == |db.messages| + 1
           && |MessagesOf(next, op.run, User)| == 1 && MessagesOf(next, op.run, User)[0].content == op.text
  {
    if !(op.thread in db.threads || op.run in db.runs) { InitialQuestion(db, op); }
  }

  /** With a fresh run id the losing creator always resolves against the winner; the constraint error never escapes. */
  lemma InitialNeverEscapes(db: Db, before: seq<Op>, after: seq<Op>, r: RunId, t: ThreadId, key: string, text: string)
    requires DbInv(db) && AllWellFormed(before) && AllWellFormed(after)
    requires r !in ApplyAll(db, before).runs
    ensures DbInv(ApplyAll(db, before)) && DbInv(ApplyAll(ApplyAll(db, before), after))
    ensures CreateInitialRun(db, ApplyAll(db, before), ApplyAll(ApplyAll(db, before), after), r, t, key, text) != Err(IntegrityError)
  {
    ReachableInv(db, before);
    ReachableInv(ApplyAll(db, before), after);
    if t in ApplyAll(db, before).threads { ThreadsPersist(ApplyAll(db, before), after, t); }
  }
}
