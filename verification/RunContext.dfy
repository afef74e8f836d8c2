/** The conversation a running run is given, and its shape over every history. */
module RunContext {
  import opened Common
  import opened RunRecords
  import opened Database

  // ----- ORDER BY created_at, id -----

  predicate IdBefore(a: string, b: string) {
    if a == "" then true
    else if b == "" then false
    else if a[0] == b[0] then IdBefore(a[1..], b[1..])
    else a[0] < b[0]
  }

  predicate Earlier(a: MessageRow, b: MessageRow) {
    a.createdAt < b.createdAt || (a.createdAt == b.createdAt && IdBefore(a.id, b.id))
  }

  function InsertInOrder(m: MessageRow, s: seq<MessageRow>): seq<MessageRow> {
    if s == [] || Earlier(m, s[0]) then [m] + s else [s[0]] + InsertInOrder(m, s[1..])
  }

  function Ordered(s: seq<MessageRow>): seq<MessageRow> {
    if s == [] then [] else InsertInOrder(s[0], Ordered(s[1..]))
  }

  predicate InContext(db: Db, r: RunId, m: MessageRow) {
    r in db.runs && m.thread == db.runs[r].thread && m.run in db.runs && Kept(db, r, m)
  }

  predicate Kept(db: Db, r: RunId, m: MessageRow) {
    m.run == r || (m.run in db.runs && db.runs[m.run].status.Completed?)
  }

  /** The messages of completed runs of the thread and of the run itself. */
  function RunContext(db: Db, r: RunId): seq<MessageRow> {
    Ordered(Filter(db.messages, (m: MessageRow) => InContext(db, r, m)))
  }

  lemma {:induction false} InsertKeepsCount(m: MessageRow, s: seq<MessageRow>, p: MessageRow -> bool)
    ensures |Filter(InsertInOrder(m, s), p)| == |Filter([m] + s, p)|
  {
    if s == [] || Earlier(m, s[0]) {
    } else {
      InsertKeepsCount(m, s[1..], p);
      assert InsertInOrder(m, s)[1..] == InsertInOrder(m, s[1..]);
      FilterConcat([m], s, p);
      FilterConcat([m], s[1..], p);
    }
  }

  lemma {:induction false} OrderKeepsCount(s: seq<MessageRow>, p: MessageRow -> bool)
    ensures |Filter(Ordered(s), p)| == |Filter(s, p)|
  {
    if s != [] {
      OrderKeepsCount(s[1..], p);
      InsertKeepsCount(s[0], Ordered(s[1..]), p);
      FilterConcat([s[0]], Ordered(s[1..]), p);
      FilterConcat([s[0]], s[1..], p);
      assert s == [s[0]] + s[1..];
    }
  }

  lemma {:induction false} FilterTwice(s: seq<MessageRow>, p: MessageRow -> bool, q: MessageRow -> bool,
                                       both: MessageRow -> bool)
    requires forall m :: m in s ==> (both(m) <==> p(m) && q(m))
    ensures Filter(Filter(s, p), q) == Filter(s, both)
  {
    if s != [] {
      FilterTwice(s[1..], p, q, both);
      if p(s[0]) {
        assert Filter(s, p)[1..] == Filter(s[1..], p);
      }
    }
  }

  function ContextCount(db: Db, r: RunId, c: RunId, role: Role): nat {
    |Filter(RunContext(db, r), (m: MessageRow) => Of(m, c, role))|
  }

  /** A message of run `c` belongs to the context of run `r`. */
  predicate Included(db: Db, r: RunId, c: RunId)
    requires r in db.runs && c in db.runs
  {
    db.runs[c].thread == db.runs[r].thread && (c == r || db.runs[c].status.Completed?)
  }

  lemma InContextIff(db: Db, r: RunId, m: MessageRow)
    requires References(db) && r in db.runs && m in db.messages
    ensures m.run in db.runs && (InContext(db, r, m) <==> Included(db, r, m.run))
  {
    var i :| 0 <= i < |db.messages| && db.messages[i] == m;
  }

  lemma ContextCountIs(db: Db, r: RunId, c: RunId, role: Role)
    requires References(db) && r in db.runs && c in db.runs
    ensures ContextCount(db, r, c, role) == if Included(db, r, c) then |MessagesOf(db, c, role)| else 0
  {
    var inContext, ofRun := (m: MessageRow) => InContext(db, r, m), (m: MessageRow) => Of(m, c, role);
    var raw := Filter(db.messages, inContext);
    OrderKeepsCount(raw, ofRun);
    forall m | m in db.messages ensures InContext(db, r, m) <==> Included(db, r, m.run) { InContextIff(db, r, m); }
    if Included(db, r, c) {
      FilterTwice(db.messages, inContext, ofRun, ofRun);
    } else {
      FilterNone(raw, ofRun);
    }
  }

  /** One question and one answer per completed run of the thread, the run's own question, and nothing else. */
  lemma ContextIsCompletedRunsAndOwnQuestion(db: Db, r: RunId, c: RunId)
    requires DbInv(db) && r in db.runs && c in db.runs && db.runs[r].status.Running?
    ensures db.runs[c].thread == db.runs[r].thread && db.runs[c].status.Completed? ==>
      ContextCount(db, r, c, User) == 1 && ContextCount(db, r, c, Assistant) == 1
    ensures ContextCount(db, r, r, User) == 1 && ContextCount(db, r, r, Assistant) == 0
    ensures c != r && (db.runs[c].thread != db.runs[r].thread || !db.runs[c].status.Completed?) ==>
      ContextCount(db, r, c, User) == 0 && ContextCount(db, r, c, Assistant) == 0
  {
    ContextCountIs(db, r, c, User);
    ContextCountIs(db, r, c, Assistant);
    ContextCountIs(db, r, r, User);
    ContextCountIs(db, r, r, Assistant);
    assert MessagesMatch(db, c) && MessagesMatch(db, r);
  }

  // ----- alternation -----

  function ThreadLog(db: Db, t: ThreadId): seq<MessageRow> {
    Filter(db.messages, (m: MessageRow) => m.thread == t)
  }

  /** An answer directly follows its question; an open question is last; a completed run's question is answered. */
  ghost predicate Placed(db: Db, log: seq<MessageRow>, i: nat)
    requires i < |log|
  {
    var m := log[i];
    && m.run in db.runs
    && (m.role.Assistant? ==> 0 < i && log[i - 1].role.User? && log[i - 1].run == m.run)
    && (m.role.User? && db.runs[m.run].status.Active() ==> i == |log| - 1)
    && (m.role.User? && db.runs[m.run].status.Completed? ==>
         i + 1 < |log| && log[i + 1].role.Assistant? && log[i + 1].run == m.run)
  }

  ghost predicate AnswersFollow(db: Db, log: seq<MessageRow>) {
    forall i :: 0 <= i < |log| ==> Placed(db, log, i)
  }

  /** In every thread each answer directly follows its question, and only the last question may be open. */
  ghost predicate ThreadOrder(db: Db) {
    forall t :: t in db.threads ==> AnswersFollow(db, ThreadLog(db, t))
  }

  lemma ThreadLogAppend(db: Db, next: Db, added: seq<MessageRow>, t: ThreadId)
    requires next.messages == db.messages + added
    ensures ThreadLog(next, t) == ThreadLog(db, t) + Filter(added, (m: MessageRow) => m.thread == t)
  {
    FilterConcat(db.messages, added, (m: MessageRow) => m.thread == t);
  }

  lemma LogMember(db: Db, t: ThreadId, i: nat)
    requires References(db) && i < |ThreadLog(db, t)|
    ensures ThreadLog(db, t)[i].run in db.runs && db.runs[ThreadLog(db, t)[i].run].thread == t
  {
    var m := ThreadLog(db, t)[i];
    assert m in ThreadLog(db, t);
    var k :| 0 <= k < |db.messages| && db.messages[k] == m;
  }

  predicate SameStanding(db: Db, next: Db, r: RunId) {
    && r in db.runs && r in next.runs
    && (next.runs[r].status.Active() ==> db.runs[r].status.Active())
    && (next.runs[r].status.Completed? <==> db.runs[r].status.Completed?)
  }

  lemma SameLog(db: Db, next: Db, log: seq<MessageRow>)
    requires AnswersFollow(db, log)
    requires forall i :: 0 <= i < |log| ==> SameStanding(db, next, log[i].run)
    ensures AnswersFollow(next, log)
  {
    forall i | 0 <= i < |log| ensures Placed(next, log, i) { assert Placed(db, log, i); }
  }

  lemma LogWithQuestion(db: Db, next: Db, log: seq<MessageRow>, q: MessageRow)
    requires AnswersFollow(db, log)
    requires forall i :: 0 <= i < |log| ==> SameStanding(db, next, log[i].run) && !db.runs[log[i].run].status.Active()
    requires q.run in next.runs && next.runs[q.run].status.Created? && q.role.User?
    ensures AnswersFollow(next, log + [q])
  {
    var more := log + [q];
    forall i | 0 <= i < |more| ensures Placed(next, more, i) {
      if i < |log| { assert Placed(db, log, i); }
    }
  }

  lemma LogWithAnswer(db: Db, next: Db, log: seq<MessageRow>, a: MessageRow)
    requires AnswersFollow(db, log) && |log| > 0
    requires forall i :: 0 <= i < |log| ==> log[i].run == a.run || SameStanding(db, next, log[i].run)
    requires a.role.Assistant? && log[|log| - 1].role.User? && log[|log| - 1].run == a.run
    requires a.run in db.runs && db.runs[a.run].status.Active()
    requires a.run in next.runs && next.runs[a.run].status.Completed?
    ensures AnswersFollow(next, log + [a])
  {
    var more := log + [a];
    forall i | 0 <= i < |more| ensures Placed(next, more, i) {
      if i < |log| { assert Placed(db, log, i); }
    }
  }

  lemma UnknownThreadHasNoLog(db: Db, t: ThreadId)
    requires References(db) && Keys(db) && t !in db.threads
    ensures ThreadLog(db, t) == []
  {
    forall m | m in db.messages ensures m.thread != t {
      var k :| 0 <= k < |db.messages| && db.messages[k] == m;
    }
    FilterNone(db.messages, (m: MessageRow) => m.thread == t);
  }

  /** Every thread's log is in order, also the empty one of a thread not yet there. */
  lemma LogInOrder(db: Db, t: ThreadId)
    requires References(db) && Keys(db) && ThreadOrder(db)
    ensures AnswersFollow(db, ThreadLog(db, t))
  {
    if t !in db.threads { UnknownThreadHasNoLog(db, t); }
  }

  ghost predicate StandingKept(db: Db, next: Db, t: ThreadId) {
    forall r :: r in db.runs && db.runs[r].thread == t ==> SameStanding(db, next, r)
  }

  lemma UnchangedLog(db: Db, next: Db, t: ThreadId)
    requires References(db) && AnswersFollow(db, ThreadLog(db, t))
    requires ThreadLog(next, t) == ThreadLog(db, t) && StandingKept(db, next, t)
    ensures AnswersFollow(next, ThreadLog(next, t))
  {
    var log := ThreadLog(db, t);
    forall i | 0 <= i < |log| ensures SameStanding(db, next, log[i].run) { LogMember(db, t, i); }
    SameLog(db, next, log);
  }

  lemma MessageElsewhere(db: Db, next: Db, added: seq<MessageRow>, t: ThreadId)
    requires next.messages == db.messages + added && forall m :: m in added ==> m.thread != t
    ensures ThreadLog(next, t) == ThreadLog(db, t)
  {
    ThreadLogAppend(db, next, added, t);
    FilterNone(added, (m: MessageRow) => m.thread == t);
  }

  lemma MessageHere(db: Db, next: Db, m: MessageRow)
    requires next.messages == db.messages + [m]
    ensures ThreadLog(next, m.thread) == ThreadLog(db, m.thread) + [m]
  {
    ThreadLogAppend(db, next, [m], m.thread);
    FilterNone([m][1..], (x: MessageRow) => x.thread == m.thread);
  }

  /** A new run's question goes last in a thread whose runs have all ended. */
  ghost predicate Asked(db: Db, next: Db, q: MessageRow) {
    && next.messages == db.messages + [q] && q.role.User?
    && q.run !in db.runs && q.run in next.runs && next.runs[q.run].status.Created?
    && (forall r :: r in db.runs ==> r in next.runs && next.runs[r] == db.runs[r])
    && (forall r :: r in db.runs && db.runs[r].thread == q.thread ==> !db.runs[r].status.Active())
  }

  lemma QuestionAdded(db: Db, next: Db, q: MessageRow)
    requires References(db) && AnswersFollow(db, ThreadLog(db, q.thread)) && Asked(db, next, q)
    ensures AnswersFollow(next, ThreadLog(next, q.thread))
  {
    var log := ThreadLog(db, q.thread);
    MessageHere(db, next, q);
    forall i | 0 <= i < |log| ensures SameStanding(db, next, log[i].run) && !db.runs[log[i].run].status.Active() {
      LogMember(db, q.thread, i);
    }
    LogWithQuestion(db, next, log, q);
  }

  lemma AskedKeepsOrder(db: Db, next: Db, q: MessageRow)
    requires References(db) && Keys(db) && ThreadOrder(db) && Asked(db, next, q)
    ensures ThreadOrder(next)
  {
    forall t | t in next.threads ensures AnswersFollow(next, ThreadLog(next, t)) {
      LogInOrder(db, t);
      if t == q.thread {
        QuestionAdded(db, next, q);
      } else {
        MessageElsewhere(db, next, [q], t);
        UnchangedLog(db, next, t);
      }
    }
  }

  lemma InsertKeepsOrder(db: Db, op: Op)
    requires References(db) && Keys(db) && ThreadOrder(db) && (op.InsertRun? || op.InsertInitial?)
    ensures ThreadOrder(Apply(db, op))
  {
    var next := Apply(db, op);
    if next.messages != db.messages {
      AskedKeepsOrder(db, next, MessageRow(op.messageId, op.thread, op.run, User, op.text, op.now));
    } else {
      assert next == db;
    }
  }

  lemma OwnQuestionIsLast(db: Db, r: RunId)
    requires References(db) && Keys(db) && ThreadOrder(db) && r in db.runs && db.runs[r].status.Active()
    requires |MessagesOf(db, r, User)| == 1
    ensures var log := ThreadLog(db, db.runs[r].thread);
      |log| > 0 && log[|log| - 1].run == r && log[|log| - 1].role.User?
  {
    var log := ThreadLog(db, db.runs[r].thread);
    var q := MessagesOf(db, r, User)[0];
    assert q in MessagesOf(db, r, User);
    var k :| 0 <= k < |db.messages| && db.messages[k] == q;
    assert q in log;
    var i :| 0 <= i < |log| && log[i] == q;
    assert AnswersFollow(db, log);
    assert Placed(db, log, i);
  }

  /** An ended run's answer goes directly after its question, the last message of its thread. */
  lemma AnswerAdded(db: Db, next: Db, r: RunId, a: MessageRow)
    requires References(db) && Keys(db) && ThreadOrder(db) && r in db.runs && |MessagesOf(db, r, User)| == 1
    requires next.runs.Keys == db.runs.Keys && next.messages == db.messages + [a]
    requires forall c :: c in db.runs && c != r ==> next.runs[c] == db.runs[c]
    requires Of(a, r, Assistant) && a.thread == db.runs[r].thread
    requires db.runs[r].status.Active() && next.runs[r].status.Completed?
    ensures AnswersFollow(next, ThreadLog(next, a.thread))
  {
    var log := ThreadLog(db, a.thread);
    LogInOrder(db, a.thread);
    OwnQuestionIsLast(db, r);
    MessageHere(db, next, a);
    forall i | 0 <= i < |log| ensures log[i].run == r || SameStanding(db, next, log[i].run) { LogMember(db, a.thread, i); }
    LogWithAnswer(db, next, log, a);
  }

  lemma UpdateKeepsOrder(db: Db, next: Db, r: RunId, row: RunRow, added: seq<MessageRow>)
    requires References(db) && Keys(db) && ThreadOrder(db) && r in db.runs && |MessagesOf(db, r, User)| == 1
    requires next.runs == db.runs[r := row] && next.messages == db.messages + added
    requires next.threads.Keys == db.threads.Keys
    requires row.thread == db.runs[r].thread
    requires row.status.Active() ==> db.runs[r].status.Active()
    requires added == [] ==> row.status.Completed? == db.runs[r].status.Completed?
    requires added != [] ==> (|added| == 1 && Of(added[0], r, Assistant) && added[0].thread == row.thread
                              && db.runs[r].status.Active() && row.status.Completed?)
    ensures ThreadOrder(next)
  {
    forall t | t in next.threads ensures AnswersFollow(next, ThreadLog(next, t)) {
      LogInOrder(db, t);
      if added != [] && t == row.thread {
        AnswerAdded(db, next, r, added[0]);
      } else {
        UpdateElsewhere(db, next, r, row, added, t);
      }
    }
  }

  lemma UpdateElsewhere(db: Db, next: Db, r: RunId, row: RunRow, added: seq<MessageRow>, t: ThreadId)
    requires References(db) && AnswersFollow(db, ThreadLog(db, t)) && r in db.runs
    requires next.runs == db.runs[r := row] && next.messages == db.messages + added
    requires forall m :: m in added ==> m.thread != t
    requires row.status.Active() ==> db.runs[r].status.Active()
    requires db.runs[r].thread == t ==> row.status.Completed? == db.runs[r].status.Completed?
    ensures AnswersFollow(next, ThreadLog(next, t))
  {
    MessageElsewhere(db, next, added, t);
    UnchangedLog(db, next, t);
  }

  /** No message is added and no run's standing changes. */
  lemma StandingKeepsOrder(db: Db, next: Db)
    requires References(db) && Keys(db) && ThreadOrder(db) && next.messages == db.messages
    requires forall r :: r in db.runs ==> SameStanding(db, next, r)
    ensures ThreadOrder(next)
  {
    forall t | t in next.threads ensures AnswersFollow(next, ThreadLog(next, t)) {
      LogInOrder(db, t);
      assert ThreadLog(next, t) == ThreadLog(db, t);
      UnchangedLog(db, next, t);
    }
  }

  lemma SweepKeepsOrder(db: Db, now: int)
    requires DbInv(db) && ThreadOrder(db)
    ensures ThreadOrder(Swept(db, now))
  {
    var next := Swept(db, now);
    SweepFacts(db, now);
    forall r | r in db.runs ensures SameStanding(db, next, r) { assert SweptInto(db.runs[r], next.runs[r]); }
    StandingKeepsOrder(db, next);
  }

  lemma OnRunKeepsOrder(db: Db, r: RunId, rowOp: RowOp)
    requires References(db) && Keys(db) && RowsOk(db) && ThreadOrder(db) && WellFormed(rowOp)
    requires r in db.runs && MessagesMatch(db, r)
    ensures ThreadOrder(ApplyOnRun(db, r, rowOp))
  {
    OnRunShape(db, r, rowOp);
    OnRunRow(db, r, rowOp);
    AnswerRow(db, r, rowOp);
    UpdateKeepsOrder(db, ApplyOnRun(db, r, rowOp), r, ApplyRow(db.runs[r], rowOp), Answer(db, r, rowOp));
  }

  /** The message a completion adds is an answer in the run's own thread, and only a running run gets one. */
  lemma AnswerRow(db: Db, r: RunId, rowOp: RowOp)
    requires r in db.runs
    ensures var added := Answer(db, r, rowOp);
      added != [] ==> (|added| == 1 && Of(added[0], r, Assistant) && added[0].thread == db.runs[r].thread
                       && db.runs[r].status.Active())
  {}

  lemma OrderKept(db: Db, op: Op)
    requires DbInv(db) && ThreadOrder(db) && OpWellFormed(op)
    ensures ThreadOrder(Apply(db, op))
  {
    match op
    case CreateThread(_, _) => StandingKeepsOrder(db, Apply(db, op));
    case InsertRun(_, _, _, _, _, _, _) => InsertKeepsOrder(db, op);
    case InsertInitial(_, _, _, _, _, _, _) => InsertKeepsOrder(db, op);
    case OnRun(r, rowOp) => if r in db.runs { OnRunKeepsOrder(db, r, rowOp); }
    case SweepAll(now) => SweepKeepsOrder(db, now);
  }

  lemma {:induction false} ReachableOrder(db: Db, ops: seq<Op>)
    requires DbInv(db) && ThreadOrder(db) && AllWellFormed(ops)
    ensures ThreadOrder(ApplyAll(db, ops))
  {
    if ops != [] {
      ReachableOrder(db, ops[..|ops| - 1]);
      ReachableInv(db, ops[..|ops| - 1]);
      OrderKept(ApplyAll(db, ops[..|ops| - 1]), ops[|ops| - 1]);
    }
  }

  ghost predicate InTurn(ctx: seq<MessageRow>, i: nat)
    requires i < |ctx|
  {
    if i % 2 == 0 then ctx[i].role.User? else ctx[i].role.Assistant? && ctx[i].run == ctx[i - 1].run
  }

  /** Questions and answers in turn, each answer to the question before it. */
  ghost predicate Turns(ctx: seq<MessageRow>) {
    forall i :: 0 <= i < |ctx| ==> InTurn(ctx, i)
  }

  /** An alternating conversation that closes with the question of run `r`. */
  ghost predicate Alternates(ctx: seq<MessageRow>, r: RunId) {
    Turns(ctx) && |ctx| % 2 == 1 && ctx[|ctx| - 1].run == r
  }

  function KeptPrefix(db: Db, r: RunId, log: seq<MessageRow>, k: nat): seq<MessageRow>
    requires k <= |log|
  {
    Filter(log[..k], (m: MessageRow) => Kept(db, r, m))
  }

  lemma KeptPrefixStep(db: Db, r: RunId, log: seq<MessageRow>, k: nat)
    requires 0 < k <= |log|
    ensures KeptPrefix(db, r, log, k) == KeptPrefix(db, r, log, k - 1) + (if Kept(db, r, log[k - 1]) then [log[k - 1]] else [])
  {
    var p := (m: MessageRow) => Kept(db, r, m);
    assert log[..k] == log[..k - 1] + [log[k - 1]];
    FilterConcat(log[..k - 1], [log[k - 1]], p);
    assert [log[k - 1]][1..] == [];
  }

  lemma {:induction false} PrefixAlternates(db: Db, r: RunId, log: seq<MessageRow>, k: nat)
    requires AnswersFollow(db, log) && r in db.runs && db.runs[r].status.Active() && k <= |log|
    ensures var ctx := KeptPrefix(db, r, log, k);
      && Turns(ctx)
      && (|ctx| % 2 == 1 <==> k > 0 && log[k - 1].role.User? && Kept(db, r, log[k - 1]))
      && (|ctx| % 2 == 1 ==> ctx[|ctx| - 1] == log[k - 1])
  {
    if k > 0 {
      PrefixAlternates(db, r, log, k - 1);
      KeptPrefixStep(db, r, log, k);
      var before, ctx := KeptPrefix(db, r, log, k - 1), KeptPrefix(db, r, log, k);
      assert Placed(db, log, k - 1);
      if k > 1 { assert Placed(db, log, k - 2); }
      forall i | 0 <= i < |ctx| ensures InTurn(ctx, i) {
        if i < |before| { assert InTurn(before, i); }
      }
    }
  }

  ghost predicate TimesIncrease(s: seq<MessageRow>) {
    forall i, j :: 0 <= i < j < |s| ==> s[i].createdAt < s[j].createdAt
  }

  lemma {:induction false} FilterKeepsTimes(s: seq<MessageRow>, p: MessageRow -> bool)
    requires TimesIncrease(s)
    ensures TimesIncrease(Filter(s, p))
  {
    if s != [] {
      FilterKeepsTimes(s[1..], p);
      var rest := Filter(s[1..], p);
      forall i | 0 <= i < |rest| ensures s[0].createdAt < rest[i].createdAt {
        assert rest[i] in rest;
        var j :| 0 <= j < |s[1..]| && s[1..][j] == rest[i];
        assert s[j + 1] == rest[i];
      }
    }
  }

  lemma {:induction false} OrderedWhenIncreasing(s: seq<MessageRow>)
    requires TimesIncrease(s)
    ensures Ordered(s) == s
  {
    if s != [] { OrderedWhenIncreasing(s[1..]); }
  }

  lemma RawContextIsKeptLog(db: Db, r: RunId)
    requires References(db) && r in db.runs
    ensures Filter(db.messages, (m: MessageRow) => InContext(db, r, m))
         == KeptPrefix(db, r, ThreadLog(db, db.runs[r].thread), |ThreadLog(db, db.runs[r].thread)|)
  {
    var t := db.runs[r].thread;
    var log := ThreadLog(db, t);
    forall m | m in db.messages ensures m.run in db.runs {
      var i :| 0 <= i < |db.messages| && db.messages[i] == m;
    }
    FilterTwice(db.messages, (m: MessageRow) => m.thread == t, (m: MessageRow) => Kept(db, r, m), (m: MessageRow) => InContext(db, r, m));
    assert log[..|log|] == log;
  }

  /** If message times increase in commit order, the context alternates and ends with the run's own question. */
  lemma ContextAlternates(db: Db, r: RunId)
    requires References(db) && Keys(db) && ThreadOrder(db)
    requires r in db.runs && db.runs[r].status.Running? && |MessagesOf(db, r, User)| == 1
    requires TimesIncrease(db.messages)
    ensures Alternates(RunContext(db, r), r)
  {
    var log := ThreadLog(db, db.runs[r].thread);
    RawContextIsKeptLog(db, r);
    FilterKeepsTimes(db.messages, (m: MessageRow) => InContext(db, r, m));
    OrderedWhenIncreasing(Filter(db.messages, (m: MessageRow) => InContext(db, r, m)));
    assert AnswersFollow(db, log);
    OwnQuestionIsLast(db, r);
    PrefixAlternates(db, r, log, |log|);
  }

  /** Every run of the system from an empty database: the context of a running run is well formed. */
  lemma ReachableContextAlternates(ops: seq<Op>, r: RunId)
    requires AllWellFormed(ops)
    requires var db := ApplyAll(EMPTY, ops); r in db.runs && db.runs[r].status.Running? && TimesIncrease(db.messages)
    ensures Alternates(RunContext(ApplyAll(EMPTY, ops), r), r)
  {
    ReachableInv(EMPTY, ops);
    ReachableOrder(EMPTY, ops);
    assert MessagesMatch(ApplyAll(EMPTY, ops), r);
    ContextAlternates(ApplyAll(EMPTY, ops), r);
  }
}
