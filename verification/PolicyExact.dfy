/**
  When the policy ledger refuses, exactly: each refusal in terms of what happened before it, on any
  history of operations without an earlier refusal (execution_policy.py).
*/
module PolicyExact {
  import opened Common
  import opened RunRecords
  import opened PolicyLedger
  import opened Budgets

  // ----- model calls -----

  /** The last `n` admitted model calls all saw the progress there is now. */
  ghost predicate NothingNewIn(h: History, n: nat) {
    n <= |h.admitted| && forall k :: |h.admitted| - n <= k < |h.admitted| ==> h.admitted[k] == h.ledger.seen
  }

  lemma {:induction false} TailIs<T>(s: seq<T>, n: nat)
    requires 0 < n <= |s|
    ensures Tail(s) >= n <==> forall k :: |s| - n <= k < |s| ==> s[k] == s[|s| - 1]
    decreases n
  {
    var front := s[..|s| - 1];
    if n > 1 {
      TailIs(front, n - 1);
      assert (forall k :: |s| - n <= k < |s| ==> s[k] == s[|s| - 1]) <==>
        s[|s| - 2] == s[|s| - 1] && forall k :: |front| - (n - 1) <= k < |front| ==> front[k] == front[|front| - 1];
    }
  }

  /**
    A model call is refused exactly past the deadline, without progress for the allowed number of calls, or
    past the limit.
  */
  lemma ModelCallRefusedIff(limits: PolicyLimits, reg: Registry, ops: seq<LedgerOp>, now: int)
    requires Play(limits, reg, ops).Some?
    ensures var h := Play(limits, reg, ops).value; var v := BeforeModelCall(limits, h.ledger, now).violation;
      && (v == Some(RunTimeout) <==> now >= limits.deadlineAt)
      && (v == Some(NoProgress) <==> now < limits.deadlineAt && NothingNewIn(h, limits.maxNoProgress))
      && (v == Some(ModelStepLimit) <==>
           now < limits.deadlineAt && !NothingNewIn(h, limits.maxNoProgress) && |h.admitted| == limits.maxModelSteps)
      && (v.None? <==>
           now < limits.deadlineAt && !NothingNewIn(h, limits.maxNoProgress) && |h.admitted| < limits.maxModelSteps)
  {
    PlayInv(limits, reg, ops);
    StalledIff(limits, Play(limits, reg, ops).value);
  }

  lemma StalledIff(limits: PolicyLimits, h: History)
    requires ProgressInv(limits, h)
    ensures var l := h.ledger;
      NothingNewIn(h, limits.maxNoProgress) <==>
        l.modelSteps > 0 && l.progressRevision == l.lastModelRevision && l.noProgress + 1 >= limits.maxNoProgress
  {
    var n, m := |h.admitted|, limits.maxNoProgress;
    if n > 0 {
      GrowingSeen(h.admitted[n - 1], h.ledger.seen);
      if m <= n { TailIs(h.admitted, m); } else { TailAtMost(h.admitted); }
    }
  }

  lemma {:induction false} TailAtMost<T>(s: seq<T>)
    ensures Tail(s) <= |s|
  {
    if |s| > 1 { TailAtMost(s[..|s| - 1]); }
  }

  // ----- batches of tool calls -----

  /** A call the ledger may reserve: an id of its own, a visible tool, and arguments the tool accepts. */
  predicate CallFine(reg: Registry, known: set<string>, calls: seq<RawCall>, i: nat)
    requires i < |calls|
  {
    var c := calls[i];
    && c.id.Some? && 1 <= |c.id.value| <= 128 && c.id.value !in known
    && (forall j :: 0 <= j < i ==> calls[j].id != c.id)
    && c.tool.Some? && c.arguments.Some? && c.tool.value in reg.visible
    && (reg.canonical)(c.tool.value, c.arguments.value).Some?
  }

  ghost predicate AllFine(reg: Registry, known: set<string>, calls: seq<RawCall>) {
    forall i :: 0 <= i < |calls| ==> CallFine(reg, known, calls, i)
  }

  /** The first call is fine, and the others are once its id is known. */
  lemma FineCons(reg: Registry, known: set<string>, calls: seq<RawCall>)
    requires calls != []
    ensures AllFine(reg, known, calls) <==>
      CallFine(reg, known, calls, 0) && AllFine(reg, known + {calls[0].id.value}, calls[1..])
  {
    if AllFine(reg, known, calls) {
      assert CallFine(reg, known, calls, 0);
      forall i | 0 <= i < |calls| - 1 ensures CallFine(reg, known + {calls[0].id.value}, calls[1..], i) {
        assert CallFine(reg, known, calls, i + 1);
        assert calls[0].id != calls[i + 1].id;
        forall j | 0 <= j < i ensures calls[1..][j].id != calls[1..][i].id { assert calls[j + 1].id != calls[i + 1].id; }
      }
    }
    if CallFine(reg, known, calls, 0) && AllFine(reg, known + {calls[0].id.value}, calls[1..]) {
      forall i | 0 <= i < |calls| ensures CallFine(reg, known, calls, i) {
        if i > 0 {
          assert CallFine(reg, known + {calls[0].id.value}, calls[1..], i - 1);
          forall j | 0 <= j < i ensures calls[j].id != calls[i].id {
            if j > 0 { assert calls[1..][j - 1].id != calls[1..][i - 1].id; }
          }
        }
      }
    }
  }

  /** Within a batch nothing is refused exactly if every call is fine and no stretch of equal calls grows too long. */
  lemma {:induction false} BatchFineIff(limits: PolicyLimits, reg: Registry, b: Batch, calls: seq<RawCall>,
                                        reserved: seq<Fingerprint>)
    requires b.violation.None? && BatchTracks(limits, b, reserved)
    ensures ExamineBatch(limits, reg, b, calls).violation.None? <==>
      AllFine(reg, b.known, calls) && NoStretchBeyond(reserved + Fingerprints(reg, calls), limits.maxIdentical)
    decreases |calls|
  {
    if calls == [] {
      assert reserved + Fingerprints(reg, calls) == reserved;
    } else {
      var c, next := calls[0], ExamineCall(limits, reg, b, calls[0]);
      FineCons(reg, b.known, calls);
      FirstCallIff(limits, reg, b, calls, reserved);
      if next.violation.None? {
        CallKeeps(limits, reg, b, c, reserved);
        var f := CanonicalFingerprint(reg, c).value;
        BatchFineIff(limits, reg, next, calls[1..], reserved + [f]);
        assert Fingerprints(reg, calls) == [f] + Fingerprints(reg, calls[1..]);
        assert reserved + [f] + Fingerprints(reg, calls[1..]) == reserved + Fingerprints(reg, calls);
      } else if CallFine(reg, b.known, calls, 0) {
        var f := CanonicalFingerprint(reg, c).value;
        assert Fingerprints(reg, calls) == [f] + Fingerprints(reg, calls[1..]);
        assert reserved + [f] + Fingerprints(reg, calls[1..]) == reserved + Fingerprints(reg, calls);
        StretchStays(reserved + [f], Fingerprints(reg, calls[1..]), limits.maxIdentical);
      }
    }
  }

  lemma FirstCallIff(limits: PolicyLimits, reg: Registry, b: Batch, calls: seq<RawCall>, reserved: seq<Fingerprint>)
    requires calls != [] && b.violation.None? && BatchTracks(limits, b, reserved)
    ensures var next := ExamineCall(limits, reg, b, calls[0]);
      && (next.violation.None? <==>
           CallFine(reg, b.known, calls, 0)
           && NoStretchBeyond(reserved + [CanonicalFingerprint(reg, calls[0]).value], limits.maxIdentical))
      && (next.violation.None? ==> next.known == b.known + {calls[0].id.value})
  {
    if CallFine(reg, b.known, calls, 0) {
      var f := CanonicalFingerprint(reg, calls[0]).value;
      TailAppend(reserved, f);
      if Tail(reserved + [f]) <= limits.maxIdentical {
        StretchAppend(reserved, f, limits.maxIdentical);
      } else {
        TailTooLong(reserved + [f], limits.maxIdentical);
      }
    }
  }

  lemma TailTooLong<T>(s: seq<T>, m: nat)
    requires Tail(s) > m
    ensures !NoStretchBeyond(s, m)
  {
    TailAtMost(s);
    TailIs(s, m + 1);
    var i := |s| - (m + 1);
    assert s[i] == s[|s| - 1];
    assert AllEqual(s, i, |s| - 1);
  }

  /** A stretch that is too long stays in every longer list. */
  lemma StretchStays<T>(s: seq<T>, more: seq<T>, m: nat)
    requires !NoStretchBeyond(s, m)
    ensures !NoStretchBeyond(s + more, m)
  {
    var i, j :| 0 <= i <= j < |s| && AllEqual(s, i, j) && j - i + 1 > m;
    assert AllEqual(s + more, i, j);
  }

  /**
    A model response is refused exactly past the deadline, if its calls do not fit the run's budget, if one of
    them is not fine, or if a stretch of equal calls would grow too long. A response without calls never is.
  */
  lemma BatchRefusedIff(limits: PolicyLimits, reg: Registry, ops: seq<LedgerOp>, texts: seq<string>,
                        calls: seq<RawCall>, now: int)
    requires Play(limits, reg, ops).Some?
    ensures var h := Play(limits, reg, ops).value;
      var v := AfterModelResponse(limits, reg, h.ledger, texts, calls, now).violation;
      && (v == Some(RunTimeout) <==> calls != [] && now >= limits.deadlineAt)
      && (v == Some(ToolCallLimit) <==>
           calls != [] && now < limits.deadlineAt && |h.reserved| + |calls| > limits.maxToolCalls)
      && (v.None? <==>
           (calls == []
            || (now < limits.deadlineAt && |h.reserved| + |calls| <= limits.maxToolCalls
                && AllFine(reg, h.ledger.reservations.Keys, calls)
                && NoStretchBeyond(h.reserved + Fingerprints(reg, calls), limits.maxIdentical))))
  {
    PlayInv(limits, reg, ops);
    var h := Play(limits, reg, ops).value;
    TextsGrow(h.ledger, texts);
    if calls != [] { ReserveRefusedIff(limits, reg, h, RecordTexts(h.ledger, texts), calls, now); }
  }

  lemma ReserveRefusedIff(limits: PolicyLimits, reg: Registry, h: History, l: Ledger, calls: seq<RawCall>, now: int)
    requires ReservationInv(limits, h) && SameReservations(h.ledger, l) && l.started == h.ledger.started && calls != []
    ensures var v := ReserveToolCalls(limits, reg, l, calls, now).violation;
      && (v == Some(RunTimeout) <==> now >= limits.deadlineAt)
      && (v == Some(ToolCallLimit) <==> now < limits.deadlineAt && |h.reserved| + |calls| > limits.maxToolCalls)
      && (v.None? <==>
           && now < limits.deadlineAt && |h.reserved| + |calls| <= limits.maxToolCalls
           && AllFine(reg, h.ledger.reservations.Keys, calls)
           && NoStretchBeyond(h.reserved + Fingerprints(reg, calls), limits.maxIdentical))
  {
    var b := EmptyBatch(l);
    assert b.known == h.ledger.reservations.Keys;
    BatchFineIff(limits, reg, b, calls, h.reserved);
    NoOtherLimit(limits, reg, b, calls);
  }

  /** Examining calls never reports the deadline or the number of calls. */
  lemma {:induction false} NoOtherLimit(limits: PolicyLimits, reg: Registry, b: Batch, calls: seq<RawCall>)
    requires b.violation != Some(RunTimeout) && b.violation != Some(ToolCallLimit)
    ensures var v := ExamineBatch(limits, reg, b, calls).violation; v != Some(RunTimeout) && v != Some(ToolCallLimit)
    decreases |calls|
  {
    if calls != [] && b.violation.None? { NoOtherLimit(limits, reg, ExamineCall(limits, reg, b, calls[0]), calls[1..]); }
  }

  // ----- one tool call, from the operations alone -----

  /** An accepted model response asked for the call, with this tool and these canonical arguments. */
  ghost predicate Asked(reg: Registry, op: LedgerOp, id: string, tool: string, f: Fingerprint) {
    op.ModelResponse? && exists j :: 0 <= j < |op.calls| && AsksFor(reg, op.calls[j], id, tool, f)
  }

  predicate AsksFor(reg: Registry, c: RawCall, id: string, tool: string, f: Fingerprint) {
    c.id == Some(id) && c.tool == Some(tool) && c.arguments.Some? && CanonicalFingerprint(reg, c) == Some(f)
  }

  ghost predicate AskedBefore(reg: Registry, ops: seq<LedgerOp>, id: string, tool: string, f: Fingerprint) {
    exists i :: 0 <= i < |ops| && Asked(reg, ops[i], id, tool, f)
  }

  predicate BegunBefore(ops: seq<LedgerOp>, id: string) {
    exists i :: 0 <= i < |ops| && ops[i].BeginTool? && ops[i].id == id
  }

  predicate BegunWith(ops: seq<LedgerOp>, id: string, tool: string) {
    exists i :: 0 <= i < |ops| && ops[i].BeginTool? && ops[i].id == id && ops[i].tool == tool
  }

  predicate FinishedBefore(ops: seq<LedgerOp>, id: string) {
    exists i :: 0 <= i < |ops| && ops[i].FinishTool? && ops[i].id == id
  }

  /** The ledger remembers exactly which calls were asked for, begun and finished. */
  ghost predicate RemembersAsked(reg: Registry, l: Ledger, ops: seq<LedgerOp>) {
    forall id, tool, f ::
      AskedBefore(reg, ops, id, tool, f) <==>
        (id in l.reservations && l.reservations[id].tool == tool && l.reservations[id].fingerprint == f)
  }

  ghost predicate RemembersCalls(l: Ledger, ops: seq<LedgerOp>) {
    && (forall id :: id in l.started <==> BegunBefore(ops, id))
    && (forall id, tool :: BegunWith(ops, id, tool) <==>
         (id in l.started && l.started[id].ToolStarted? && l.started[id].name == tool))
    && (forall id :: id in l.finished <==> FinishedBefore(ops, id))
  }

  lemma AskedAppend(reg: Registry, ops: seq<LedgerOp>, op: LedgerOp, id: string, tool: string, f: Fingerprint)
    ensures AskedBefore(reg, ops + [op], id, tool, f) <==>
      AskedBefore(reg, ops, id, tool, f) || Asked(reg, op, id, tool, f)
  {
    var more := ops + [op];
    if i :| 0 <= i < |ops| && Asked(reg, ops[i], id, tool, f) { assert more[i] == ops[i]; }
    assert more[|ops|] == op;
  }

  lemma CallsAppend(ops: seq<LedgerOp>, op: LedgerOp, id: string, tool: string)
    ensures BegunBefore(ops + [op], id) <==> BegunBefore(ops, id) || (op.BeginTool? && op.id == id)
    ensures BegunWith(ops + [op], id, tool) <==>
      BegunWith(ops, id, tool) || (op.BeginTool? && op.id == id && op.tool == tool)
    ensures FinishedBefore(ops + [op], id) <==> FinishedBefore(ops, id) || (op.FinishTool? && op.id == id)
  {
    var more := ops + [op];
    assert more[|ops|] == op;
    if i :| 0 <= i < |ops| && ops[i].BeginTool? && ops[i].id == id { assert more[i] == ops[i]; }
    if i :| 0 <= i < |ops| && ops[i].BeginTool? && ops[i].id == id && ops[i].tool == tool { assert more[i] == ops[i]; }
    if i :| 0 <= i < |ops| && ops[i].FinishTool? && ops[i].id == id { assert more[i] == ops[i]; }
  }

  /** What an accepted batch adds to the pending reservations: exactly what its calls ask for. */
  lemma {:induction false} PendingIs(limits: PolicyLimits, reg: Registry, b: Batch, calls: seq<RawCall>,
                                     id: string, tool: string, f: Fingerprint)
    requires b.violation.None? && ExamineBatch(limits, reg, b, calls).violation.None? && b.pending.Keys <= b.known
    ensures var p := ExamineBatch(limits, reg, b, calls).pending;
      (id in p && p[id].tool == tool && p[id].fingerprint == f) <==>
        || (id in b.pending && b.pending[id].tool == tool && b.pending[id].fingerprint == f)
        || (exists j :: 0 <= j < |calls| && AsksFor(reg, calls[j], id, tool, f))
    decreases |calls|
  {
    if calls != [] {
      var next := ExamineCall(limits, reg, b, calls[0]);
      assert next.violation.None? by { NextAccepted(limits, reg, b, calls); }
      PendingIs(limits, reg, next, calls[1..], id, tool, f);
      AsksSplit(reg, calls, id, tool, f);
    }
  }

  lemma NextAccepted(limits: PolicyLimits, reg: Registry, b: Batch, calls: seq<RawCall>)
    requires calls != [] && b.violation.None? && ExamineBatch(limits, reg, b, calls).violation.None?
    ensures ExamineCall(limits, reg, b, calls[0]).violation.None?
  {}

  lemma AsksSplit(reg: Registry, calls: seq<RawCall>, id: string, tool: string, f: Fingerprint)
    requires calls != []
    ensures (exists j :: 0 <= j < |calls| && AsksFor(reg, calls[j], id, tool, f)) <==>
      (AsksFor(reg, calls[0], id, tool, f) || exists j :: 0 <= j < |calls| - 1 && AsksFor(reg, calls[1..][j], id, tool, f))
  {
    if j :| 0 <= j < |calls| && AsksFor(reg, calls[j], id, tool, f) {
      if j > 0 { assert calls[1..][j - 1] == calls[j]; }
    }
    if j :| 0 <= j < |calls| - 1 && AsksFor(reg, calls[1..][j], id, tool, f) { assert calls[j + 1] == calls[1..][j]; }
  }

  /** The parts of the ledger that remember calls. */
  predicate SameCalls(l: Ledger, r: Ledger) {
    r.reservations == l.reservations && r.started == l.started && r.finished == l.finished
  }

  lemma ResponseAsks(limits: PolicyLimits, reg: Registry, l: Ledger, texts: seq<string>, calls: seq<RawCall>, now: int,
                     id: string, tool: string, f: Fingerprint)
    requires l.progressRevision == |l.seen| && AfterModelResponse(limits, reg, l, texts, calls, now).violation.None?
    ensures var r := AfterModelResponse(limits, reg, l, texts, calls, now).ledger;
      && r.started == l.started && r.finished == l.finished
      && ((id in r.reservations && r.reservations[id].tool == tool && r.reservations[id].fingerprint == f) <==>
           || (id in l.reservations && l.reservations[id].tool == tool && l.reservations[id].fingerprint == f)
           || Asked(reg, ModelResponse(texts, calls, now), id, tool, f))
  {
    TextsGrow(l, texts);
    if calls != [] { ReservedAsks(limits, reg, RecordTexts(l, texts), texts, calls, now, id, tool, f); }
  }

  lemma ReservedAsks(limits: PolicyLimits, reg: Registry, l: Ledger, texts: seq<string>, calls: seq<RawCall>, now: int,
                     id: string, tool: string, f: Fingerprint)
    requires calls != [] && ReserveToolCalls(limits, reg, l, calls, now).violation.None?
    ensures var r := ReserveToolCalls(limits, reg, l, calls, now).ledger;
      && r.started == l.started && r.finished == l.finished
      && ((id in r.reservations && r.reservations[id].tool == tool && r.reservations[id].fingerprint == f) <==>
           || (id in l.reservations && l.reservations[id].tool == tool && l.reservations[id].fingerprint == f)
           || Asked(reg, ModelResponse(texts, calls, now), id, tool, f))
  {
    ReserveTouches(limits, reg, l, calls, now);
    ReserveFields(limits, reg, l, calls, now);
    ReserveCounts(limits, reg, EmptyBatch(l), calls);
    PendingIs(limits, reg, EmptyBatch(l), calls, id, tool, f);
    var p := ExamineBatch(limits, reg, EmptyBatch(l), calls).pending;
    assert id in p ==> id !in l.reservations;
  }

  lemma OthersKeepCalls(limits: PolicyLimits, reg: Registry, l: Ledger, op: LedgerOp)
    requires op.ModelCall? || op.Finalize? || op.Accept?
    ensures SameCalls(l, Perform(limits, reg, l, op).ledger)
  {}

  lemma FinishKeepsCalls(limits: PolicyLimits, reg: Registry, l: Ledger, id: string, tool: string, sound: bool,
                         outcome: Option<ToolOutcome>, now: int)
    requires l.progressRevision == |l.seen|
    requires FinishToolCall(limits, reg, l, id, tool, sound, outcome, now).violation.None?
    ensures var r := FinishToolCall(limits, reg, l, id, tool, sound, outcome, now).ledger;
      && r.reservations == l.reservations && r.started == l.started && r.finished.Keys == l.finished.Keys + {id}
  {
    FinishIs(limits, reg, l, id, tool, sound, outcome, now);
    SourcesGrow(ClosedCall(reg, l, id, tool, outcome.value), id, outcome.value.sources);
  }

  lemma AskedStep(limits: PolicyLimits, reg: Registry, l: Ledger, ops: seq<LedgerOp>, op: LedgerOp)
    requires RemembersAsked(reg, l, ops) && l.progressRevision == |l.seen|
    requires Perform(limits, reg, l, op).violation.None?
    ensures RemembersAsked(reg, Perform(limits, reg, l, op).ledger, ops + [op])
  {
    var r := Perform(limits, reg, l, op).ledger;
    forall id, tool, f
      ensures AskedBefore(reg, ops + [op], id, tool, f) <==>
        (id in r.reservations && r.reservations[id].tool == tool && r.reservations[id].fingerprint == f)
    {
      AskedAppend(reg, ops, op, id, tool, f);
      match op
      case ModelResponse(texts, calls, now) => ResponseAsks(limits, reg, l, texts, calls, now, id, tool, f);
      case FinishTool(i, t, sound, outcome, now) => FinishKeepsCalls(limits, reg, l, i, t, sound, outcome, now);
      case BeginTool(_, _, _, _, _) =>
      case _ => OthersKeepCalls(limits, reg, l, op);
    }
  }

  lemma CallsStep(limits: PolicyLimits, reg: Registry, l: Ledger, ops: seq<LedgerOp>, op: LedgerOp)
    requires RemembersCalls(l, ops) && l.progressRevision == |l.seen| && Perform(limits, reg, l, op).violation.None?
    ensures RemembersCalls(Perform(limits, reg, l, op).ledger, ops + [op])
  {
    var r := Perform(limits, reg, l, op).ledger;
    match op {
      case ModelResponse(texts, calls, now) => ResponseAsks(limits, reg, l, texts, calls, now, "", "", Fingerprint("", ""));
      case FinishTool(i, t, sound, outcome, now) => FinishKeepsCalls(limits, reg, l, i, t, sound, outcome, now);
      case BeginTool(_, _, _, _, _) =>
      case _ => OthersKeepCalls(limits, reg, l, op);
    }
    forall id ensures (id in r.started <==> BegunBefore(ops + [op], id)) && (id in r.finished <==> FinishedBefore(ops + [op], id)) {
      CallsAppend(ops, op, id, "");
    }
    forall id, tool
      ensures BegunWith(ops + [op], id, tool) <==>
        (id in r.started && r.started[id].ToolStarted? && r.started[id].name == tool)
    {
      CallsAppend(ops, op, id, tool);
      if BegunWith(ops, id, tool) { WithIsBegun(ops, id, tool); }
    }
  }

  lemma WithIsBegun(ops: seq<LedgerOp>, id: string, tool: string)
    requires BegunWith(ops, id, tool)
    ensures BegunBefore(ops, id)
  {
    var i :| 0 <= i < |ops| && ops[i].BeginTool? && ops[i].id == id && ops[i].tool == tool;
  }

  /** On every history without a refusal the ledger remembers exactly the calls asked for, begun and finished in it. */
  lemma {:induction false} LedgerRemembers(limits: PolicyLimits, reg: Registry, ops: seq<LedgerOp>)
    ensures var h := Play(limits, reg, ops);
      h.Some? ==> RemembersAsked(reg, h.value.ledger, ops) && RemembersCalls(h.value.ledger, ops)
  {
    if ops != [] && Play(limits, reg, ops).Some? {
      var front, op := ops[..|ops| - 1], ops[|ops| - 1];
      LedgerRemembers(limits, reg, front);
      PlayInv(limits, reg, front);
      var l := Play(limits, reg, front).value.ledger;
      AskedStep(limits, reg, l, front, op);
      CallsStep(limits, reg, l, front, op);
      assert front + [op] == ops;
    }
  }

  /**
    A tool call begins exactly if it is in time, was asked for with this tool and these canonical arguments by an
    accepted response, has not begun before, and the tool is permitted now; each refusal has its own reason.
  */
  lemma CallBeginsIff(limits: PolicyLimits, reg: Registry, ops: seq<LedgerOp>, id: string, tool: string,
                      arguments: string,
                      permitted: bool, now: int)
    requires Play(limits, reg, ops).Some?
    ensures var v := BeginToolCall(limits, reg, Play(limits, reg, ops).value.ledger, id, tool, arguments, permitted, now).violation;
      var canonical := (reg.canonical)(tool, arguments);
      var asked := exists f :: AskedBefore(reg, ops, id, tool, f);
      && (v == Some(RunTimeout) <==> now >= limits.deadlineAt)
      && (v.None? <==>
           && now < limits.deadlineAt && permitted && !BegunBefore(ops, id) && canonical.Some?
           && AskedBefore(reg, ops, id, tool, Fingerprint(tool, canonical.value)))
      && (v == Some(ExecutionFailed("tool_arguments_invalid")) <==>
           now < limits.deadlineAt && asked && !BegunBefore(ops, id) && canonical.None?)
      && (v.Some? && v != Some(RunTimeout) && v != Some(ExecutionFailed("tool_arguments_invalid")) ==> v == Some(ToolNotAllowed))
  {
    LedgerRemembers(limits, reg, ops);
    var l := Play(limits, reg, ops).value.ledger;
    if id in l.reservations && l.reservations[id].tool == tool {
      assert AskedBefore(reg, ops, id, tool, l.reservations[id].fingerprint);
    }
  }

  /**
    A finish is accepted exactly if it is in time, the call began with this tool and has not finished before, the
    message names it and parses, and none of its sources is already known with other data.
  */
  lemma CallFinishesIff(limits: PolicyLimits, reg: Registry, ops: seq<LedgerOp>, id: string, tool: string, sound: bool,
                        outcome: Option<ToolOutcome>, now: int)
    requires Play(limits, reg, ops).Some?
    ensures var l := Play(limits, reg, ops).value.ledger;
      var v := FinishToolCall(limits, reg, l, id, tool, sound, outcome, now).violation;
      var open := BegunWith(ops, id, tool) && !FinishedBefore(ops, id) && sound;
      && (v == Some(RunTimeout) <==> now >= limits.deadlineAt)
      && (v == Some(ExecutionFailed("tool_lifecycle_invalid")) <==> now < limits.deadlineAt && !open)
      && (v == Some(ExecutionFailed("tool_execution_failed")) <==> now < limits.deadlineAt && open && outcome.None?)
      && (v == Some(SourceValidationFailed) <==>
           && now < limits.deadlineAt && open && outcome.Some?
           && exists i :: 0 <= i < |outcome.value.sources| && KnownOtherwise(l, outcome.value.sources[i]))
      && (v.None? <==>
           && now < limits.deadlineAt && open && outcome.Some?
           && forall i :: 0 <= i < |outcome.value.sources| ==> !KnownOtherwise(l, outcome.value.sources[i]))
  {
    LedgerRemembers(limits, reg, ops);
  }

  /** The source was announced before with another title or description. */
  predicate KnownOtherwise(l: Ledger, s: ToolSource) {
    s.id in l.sources && l.sources[s.id].payload != SourceAdded(s.id, s.title, s.description)
  }
}
