/** Every budget of a run holds on every history of ledger operations up to the first violation. */
module Budgets {
  import opened Common
  import opened RunRecords
  import opened PolicyLedger

  /** The ledger operations a runner can trigger, in any order. */
  datatype LedgerOp =
    | ModelCall(now: int)
    | ModelResponse(texts: seq<string>, calls: seq<RawCall>, now: int)
    | Finalize
    | BeginTool(id: string, tool: string, arguments: string, permitted: bool, now: int)
    | FinishTool(id: string, tool: string, sound: bool, outcome: Option<ToolOutcome>, now: int)
    | Accept(payload: Payload)

  function Perform(limits: PolicyLimits, reg: Registry, l: Ledger, op: LedgerOp): Step {
    match op
    case ModelCall(now) => BeforeModelCall(limits, l, now)
    case ModelResponse(texts, calls, now) => AfterModelResponse(limits, reg, l, texts, calls, now)
    case Finalize => Step(RecordProgress(l, FinalizeSignal), None)
    case BeginTool(id, tool, arguments, permitted, now) => BeginToolCall(limits, reg, l, id, tool, arguments, permitted, now)
    case FinishTool(id, tool, sound, outcome, now) =>
      var f := FinishToolCall(limits, reg, l, id, tool, sound, outcome, now);
      Step(f.ledger, f.violation)
    case Accept(p) => AcceptEvent(l, p)
  }

  /** What an observer records: reserved fingerprints, and the progress seen at each admitted model call. */
  datatype History = History(ledger: Ledger, reserved: seq<Fingerprint>, admitted: seq<set<ProgressKey>>)

  function Fingerprints(reg: Registry, calls: seq<RawCall>): seq<Fingerprint> {
    if calls == [] then []
    else
      var c := calls[0];
      (if c.tool.Some? && c.arguments.Some? && CanonicalFingerprint(reg, c).Some?
       then [CanonicalFingerprint(reg, c).value] else []) + Fingerprints(reg, calls[1..])
  }

  /** The history after one operation without violation. */
  function Record(limits: PolicyLimits, reg: Registry, h: History, op: LedgerOp): History
    requires Perform(limits, reg, h.ledger, op).violation.None?
  {
    var l := Perform(limits, reg, h.ledger, op).ledger;
    match op
    case ModelCall(_) => History(l, h.reserved, h.admitted + [l.seen])
    case ModelResponse(_, calls, _) => History(l, h.reserved + Fingerprints(reg, calls), h.admitted)
    case _ => h.(ledger := l)
  }

  /** The history of a run that has met no violation, or None once it has. */
  function Play(limits: PolicyLimits, reg: Registry, ops: seq<LedgerOp>): Option<History> {
    if ops == [] then Some(History(EMPTY_LEDGER, [], []))
    else
      var before := Play(limits, reg, ops[..|ops| - 1]);
      if before.None? || Perform(limits, reg, before.value.ledger, ops[|ops| - 1]).violation.Some? then None
      else Some(Record(limits, reg, before.value, ops[|ops| - 1]))
  }

  // ----- stretches of equal values -----

  /** The length of the stretch of equal values a list ends with. */
  function Tail<T(==)>(s: seq<T>): nat {
    if |s| == 0 then 0
    else if |s| > 1 && s[|s| - 2] == s[|s| - 1] then 1 + Tail(s[..|s| - 1])
    else 1
  }

  ghost predicate AllEqual<T>(s: seq<T>, i: nat, j: nat)
    requires i <= j < |s|
  {
    forall k :: i <= k <= j ==> s[k] == s[i]
  }

  /** No stretch of consecutive equal values is longer than `m`. */
  ghost predicate NoStretchBeyond<T>(s: seq<T>, m: nat) {
    forall i, j :: 0 <= i <= j < |s| && AllEqual(s, i, j) ==> j - i + 1 <= m
  }

  lemma {:induction false} TailCoversStretch<T>(s: seq<T>, i: nat)
    requires i < |s| && AllEqual(s, i, |s| - 1)
    ensures |s| - i <= Tail(s)
  {
    if i < |s| - 1 {
      assert s[|s| - 2] == s[i] && s[|s| - 1] == s[i];
      assert forall k :: i <= k <= |s| - 2 ==> s[..|s| - 1][k] == s[k];
      TailCoversStretch(s[..|s| - 1], i);
    }
  }

  lemma StretchAppend<T>(s: seq<T>, x: T, m: nat)
    requires NoStretchBeyond(s, m) && Tail(s + [x]) <= m
    ensures NoStretchBeyond(s + [x], m)
  {
    var t := s + [x];
    forall i, j | 0 <= i <= j < |t| && AllEqual(t, i, j) ensures j - i + 1 <= m {
      if j == |s| {
        TailCoversStretch(t, i);
      } else {
        assert forall k :: i <= k <= j ==> s[k] == t[k];
        assert AllEqual(s, i, j);
      }
    }
  }

  lemma TailAppend<T>(s: seq<T>, x: T)
    ensures Tail(s + [x]) == if |s| > 0 && s[|s| - 1] == x then Tail(s) + 1 else 1
  {
    assert (s + [x])[..|s|] == s;
  }

  // ----- reservations -----

  /** The batch counters describe the fingerprints reserved so far plus those of this batch. */
  ghost predicate BatchTracks(limits: PolicyLimits, b: Batch, reserved: seq<Fingerprint>) {
    && b.identical == Tail(reserved) <= limits.maxIdentical
    && b.last == (if reserved == [] then None else Some(reserved[|reserved| - 1]))
    && NoStretchBeyond(reserved, limits.maxIdentical)
  }

  lemma CallFields(limits: PolicyLimits, reg: Registry, b: Batch, c: RawCall)
    requires b.violation.None? && ExamineCall(limits, reg, b, c).violation.None?
    ensures c.tool.Some? && c.arguments.Some? && CanonicalFingerprint(reg, c).Some?
    ensures var next := ExamineCall(limits, reg, b, c); var f := CanonicalFingerprint(reg, c);
      next.last == f && next.identical == (if b.last == f then b.identical + 1 else 1) && next.identical <= limits.maxIdentical
  {}

  lemma CallKeeps(limits: PolicyLimits, reg: Registry, b: Batch, c: RawCall, reserved: seq<Fingerprint>)
    requires BatchTracks(limits, b, reserved) && b.violation.None?
    requires ExamineCall(limits, reg, b, c).violation.None?
    ensures c.tool.Some? && c.arguments.Some? && CanonicalFingerprint(reg, c).Some?
    ensures BatchTracks(limits, ExamineCall(limits, reg, b, c), reserved + [CanonicalFingerprint(reg, c).value])
  {
    CallFields(limits, reg, b, c);
    var f := CanonicalFingerprint(reg, c).value;
    TailAppend(reserved, f);
    StretchAppend(reserved, f, limits.maxIdentical);
  }

  lemma {:induction false} BatchKeeps(limits: PolicyLimits, reg: Registry, b: Batch, calls: seq<RawCall>,
                                      reserved: seq<Fingerprint>)
    requires BatchTracks(limits, b, reserved) && b.violation.None?
    requires ExamineBatch(limits, reg, b, calls).violation.None?
    ensures BatchTracks(limits, ExamineBatch(limits, reg, b, calls), reserved + Fingerprints(reg, calls))
    ensures |Fingerprints(reg, calls)| == |calls|
    decreases |calls|
  {
    if calls == [] {
      assert reserved + Fingerprints(reg, calls) == reserved;
    } else {
      var next := ExamineCall(limits, reg, b, calls[0]);
      assert ExamineBatch(limits, reg, b, calls) == ExamineBatch(limits, reg, next, calls[1..]);
      if next.violation.None? {
        CallKeeps(limits, reg, b, calls[0], reserved);
        var f := CanonicalFingerprint(reg, calls[0]).value;
        BatchKeeps(limits, reg, next, calls[1..], reserved + [f]);
        assert Fingerprints(reg, calls) == [f] + Fingerprints(reg, calls[1..]);
        assert reserved + [f] + Fingerprints(reg, calls[1..]) == reserved + Fingerprints(reg, calls);
      }
    }
  }

  ghost predicate ReservationInv(limits: PolicyLimits, h: History) {
    var l := h.ledger;
    && |h.reserved| == |l.reservations| == l.attempted <= limits.maxToolCalls
    && l.identical == Tail(h.reserved) <= limits.maxIdentical
    && l.lastFingerprint == (if h.reserved == [] then None else Some(h.reserved[|h.reserved| - 1]))
    && NoStretchBeyond(h.reserved, limits.maxIdentical)
    && l.started.Keys <= l.reservations.Keys
  }

  /** A batch is reserved entirely or not at all. */
  lemma BatchAllOrNothing(limits: PolicyLimits, reg: Registry, l: Ledger, calls: seq<RawCall>, now: int)
    ensures var r := ReserveToolCalls(limits, reg, l, calls, now);
      if r.violation.Some? then r.ledger.reservations == l.reservations
      else && (forall i :: 0 <= i < |calls| ==> CallReserved(calls[i], l.reservations, r.ledger.reservations))
           && r.ledger.reservations.Keys >= l.reservations.Keys
           && |r.ledger.reservations| == |l.reservations| + |calls|
  {
    var r := ReserveToolCalls(limits, reg, l, calls, now);
    if r.violation.Some? || calls == [] {
      NothingReserved(limits, reg, l, calls, now);
    } else {
      var b := ExamineBatch(limits, reg, EmptyBatch(l), calls);
      ReserveFields(limits, reg, l, calls, now);
      ReserveCounts(limits, reg, EmptyBatch(l), calls);
      PendingJoin(l, calls, b.pending);
      assert r.ledger.reservations == l.reservations + b.pending;
    }
  }

  lemma NothingReserved(limits: PolicyLimits, reg: Registry, l: Ledger, calls: seq<RawCall>, now: int)
    requires ReserveToolCalls(limits, reg, l, calls, now).violation.Some? || calls == []
    ensures ReserveToolCalls(limits, reg, l, calls, now).ledger.reservations == l.reservations
  {}

  lemma PendingJoin(l: Ledger, calls: seq<RawCall>, pending: map<string, Reservation>)
    requires |pending| == |calls| && forall id :: id in pending ==> id !in l.reservations
    requires forall i :: 0 <= i < |calls| ==> PendingMatches(calls[i], EmptyBatch(l).known, pending)
    ensures forall i :: 0 <= i < |calls| ==> CallReserved(calls[i], l.reservations, l.reservations + pending)
    ensures |l.reservations + pending| == |l.reservations| + |calls|
    ensures (l.reservations + pending).Keys >= l.reservations.Keys
  {
    DisjointUnionSize(l.reservations, pending);
    forall i | 0 <= i < |calls| ensures CallReserved(calls[i], l.reservations, l.reservations + pending) {
      assert PendingMatches(calls[i], EmptyBatch(l).known, pending);
    }
  }

  ghost predicate CallReserved(c: RawCall, before: map<string, Reservation>, after: map<string, Reservation>) {
    c.id.Some? && c.id.value !in before && c.id.value in after && Some(after[c.id.value].tool) == c.tool
  }

  lemma DisjointUnionSize<K, V>(a: map<K, V>, b: map<K, V>)
    requires a.Keys !! b.Keys
    ensures |a + b| == |a| + |b|
  {
    assert (a + b).Keys == a.Keys + b.Keys;
    assert |a.Keys + b.Keys| == |a.Keys| + |b.Keys|;
  }

  ghost predicate PendingMatches(c: RawCall, known: set<string>, pending: map<string, Reservation>) {
    c.id.Some? && c.id.value in pending && c.id.value !in known && Some(pending[c.id.value].tool) == c.tool
  }

  lemma {:induction false} ReserveCounts(limits: PolicyLimits, reg: Registry, b: Batch, calls: seq<RawCall>)
    requires b.violation.None? && b.pending.Keys <= b.known
    requires ExamineBatch(limits, reg, b, calls).violation.None?
    ensures var end := ExamineBatch(limits, reg, b, calls);
      && |end.pending| == |b.pending| + |calls|
      && (forall id :: id in b.pending ==> id in end.pending && end.pending[id] == b.pending[id])
      && (forall id :: id in end.pending && id !in b.pending ==> id !in b.known)
      && (forall i :: 0 <= i < |calls| ==> PendingMatches(calls[i], b.known, end.pending))
    decreases |calls|
  {
    if calls != [] {
      var next := ExamineCall(limits, reg, b, calls[0]);
      if next.violation.None? {
        ReserveCounts(limits, reg, next, calls[1..]);
        var end := ExamineBatch(limits, reg, b, calls);
        forall i | 0 <= i < |calls| ensures PendingMatches(calls[i], b.known, end.pending) {
          if i > 0 { assert PendingMatches(calls[1..][i - 1], next.known, end.pending); }
        }
      }
    }
  }

  // ----- progress -----

  ghost predicate Growing(s: seq<set<ProgressKey>>) {
    forall i, j :: 0 <= i <= j < |s| ==> s[i] <= s[j]
  }

  ghost predicate ProgressInv(limits: PolicyLimits, h: History) {
    var l := h.ledger;
    && l.progressRevision == |l.seen|
    && |h.admitted| == l.modelSteps <= limits.maxModelSteps
    && Growing(h.admitted)
    && NoStretchBeyond(h.admitted, limits.maxNoProgress)
    && (h.admitted == [] ==> l.noProgress == 0)
    && (h.admitted != [] ==>
         && h.admitted[|h.admitted| - 1] <= l.seen
         && l.lastModelRevision == |h.admitted[|h.admitted| - 1]|
         && l.noProgress + 1 == Tail(h.admitted))
  }

  lemma {:induction false} TextsGrow(l: Ledger, texts: seq<string>)
    requires l.progressRevision == |l.seen|
    ensures var r := RecordTexts(l, texts);
      && r == l.(seen := r.seen, progressRevision := r.progressRevision)
      && l.seen <= r.seen && r.progressRevision == |r.seen|
    decreases |texts|
  {
    if texts != [] {
      TextsGrow(if texts[0] == "" then l else RecordProgress(l, AnswerText(texts[0])), texts[1..]);
    }
  }

  lemma {:induction false} SourcesGrow(l: Ledger, id: string, sources: seq<ToolSource>)
    requires l.progressRevision == |l.seen|
    ensures var r := AddSources(l, id, sources).0;
      && r == l.(seen := r.seen, progressRevision := r.progressRevision, sources := r.sources, generated := r.generated)
      && l.seen <= r.seen && r.progressRevision == |r.seen|
    decreases |sources|
  {
    if sources != [] {
      var s := sources[0];
      if s.id in l.sources {
        SourcesGrow(l.(sources := l.sources[s.id := l.sources[s.id].(calls := l.sources[s.id].calls + {id})]), id, sources[1..]);
      } else {
        SourcesGrow(RecordProgress(l.(sources := l.sources[s.id := SourceEntry({id}, SourcePayload(s))],
                                      generated := l.generated + [s.id]), SourceSeen(s.id)), id, sources[1..]);
      }
    }
  }

  /** The fields only reservations change. */
  ghost predicate SameReservations(l: Ledger, r: Ledger) {
    && r.reservations == l.reservations && r.attempted == l.attempted && r.identical == l.identical
    && r.lastFingerprint == l.lastFingerprint && r.started.Keys <= l.started.Keys + l.reservations.Keys
  }

  /** The fields only model calls change; progress can only be added. */
  ghost predicate SameModelCounters(l: Ledger, r: Ledger) {
    && r.modelSteps == l.modelSteps && r.lastModelRevision == l.lastModelRevision && r.noProgress == l.noProgress
    && l.seen <= r.seen && r.progressRevision == |r.seen|
  }

  /** The ledger of an accepted finish before its sources are added. */
  function ClosedCall(reg: Registry, l: Ledger, id: string, tool: string, o: ToolOutcome): Ledger {
    RecordProgress(l.(finished := l.finished[id := ToolFinished(id, tool, (reg.title)(tool), o.result)],
                      succeeded := l.succeeded + 1), ToolFact(o.fact))
  }

  lemma FinishIs(limits: PolicyLimits, reg: Registry, l: Ledger, id: string, tool: string, sound: bool,
                 outcome: Option<ToolOutcome>, now: int)
    requires FinishToolCall(limits, reg, l, id, tool, sound, outcome, now).violation.None?
    ensures outcome.Some? && id !in l.finished
    ensures FinishToolCall(limits, reg, l, id, tool, sound, outcome, now).ledger
         == AddSources(ClosedCall(reg, l, id, tool, outcome.value), id, outcome.value.sources).0
  {}

  lemma FinishChanges(limits: PolicyLimits, reg: Registry, l: Ledger, id: string, tool: string, sound: bool,
                      outcome: Option<ToolOutcome>, now: int)
    requires l.progressRevision == |l.seen|
    ensures var r := FinishToolCall(limits, reg, l, id, tool, sound, outcome, now).ledger;
      SameReservations(l, r) && SameModelCounters(l, r)
  {
    var f := FinishToolCall(limits, reg, l, id, tool, sound, outcome, now);
    if f.violation.None? {
      FinishIs(limits, reg, l, id, tool, sound, outcome, now);
      SourcesGrow(ClosedCall(reg, l, id, tool, outcome.value), id, outcome.value.sources);
    } else {
      assert f.ledger == l;
    }
  }

  lemma BeginChanges(limits: PolicyLimits, reg: Registry, l: Ledger, id: string, tool: string, arguments: string,
                     permitted: bool, now: int)
    ensures var r := BeginToolCall(limits, reg, l, id, tool, arguments, permitted, now).ledger;
      r == l.(started := r.started) && r.started.Keys <= l.started.Keys + l.reservations.Keys
  {}

  lemma AcceptChanges(l: Ledger, p: Payload)
    ensures var r := AcceptEvent(l, p).ledger;
      r == l.(persistedStarted := r.persistedStarted, persistedFinished := r.persistedFinished,
              persistedSources := r.persistedSources, persistedOrder := r.persistedOrder)
  {}

  lemma ReserveTouches(limits: PolicyLimits, reg: Registry, l: Ledger, calls: seq<RawCall>, now: int)
    ensures var r := ReserveToolCalls(limits, reg, l, calls, now).ledger;
      r == l.(attempted := r.attempted, lastFingerprint := r.lastFingerprint, identical := r.identical, repeated := r.repeated,
              reservations := r.reservations)
  {}

  lemma ReserveChanges(limits: PolicyLimits, reg: Registry, l: Ledger, texts: seq<string>, calls: seq<RawCall>,
                       now: int)
    requires l.progressRevision == |l.seen|
    ensures SameModelCounters(l, AfterModelResponse(limits, reg, l, texts, calls, now).ledger)
  {
    TextsGrow(l, texts);
    ReserveTouches(limits, reg, RecordTexts(l, texts), calls, now);
  }

  lemma LifecycleChanges(limits: PolicyLimits, reg: Registry, l: Ledger, op: LedgerOp)
    requires l.progressRevision == |l.seen| && (op.Finalize? || op.BeginTool? || op.Accept?)
    ensures var r := Perform(limits, reg, l, op).ledger; SameModelCounters(l, r) && SameReservations(l, r)
  {
    match op
    case Finalize =>
    case BeginTool(id, tool, arguments, permitted, now) => BeginChanges(limits, reg, l, id, tool, arguments, permitted, now);
    case Accept(p) => AcceptChanges(l, p);
  }

  /** Everything but a model call leaves the model counters alone and only adds progress. */
  lemma OtherOpsGrow(limits: PolicyLimits, reg: Registry, l: Ledger, op: LedgerOp)
    requires l.progressRevision == |l.seen| && !op.ModelCall?
    ensures SameModelCounters(l, Perform(limits, reg, l, op).ledger)
  {
    match op
    case ModelResponse(texts, calls, now) => ReserveChanges(limits, reg, l, texts, calls, now);
    case FinishTool(id, tool, sound, outcome, now) => FinishChanges(limits, reg, l, id, tool, sound, outcome, now);
    case _ => LifecycleChanges(limits, reg, l, op);
  }

  lemma GrowingSeen(a: set<ProgressKey>, b: set<ProgressKey>)
    requires a <= b
    ensures |a| <= |b| && (|a| == |b| <==> a == b)
  {
    assert b == a + (b - a);
    assert |b| == |a| + |b - a|;
  }

  lemma GrowingAppend(s: seq<set<ProgressKey>>, x: set<ProgressKey>)
    requires Growing(s) && (s != [] ==> s[|s| - 1] <= x)
    ensures Growing(s + [x])
  {}

  /** What admitting a model call does to the counters. */
  lemma ModelCallCounts(limits: PolicyLimits, l: Ledger, now: int)
    requires BeforeModelCall(limits, l, now).violation.None?
    ensures var r := BeforeModelCall(limits, l, now).ledger;
      && r.modelSteps == l.modelSteps + 1 <= limits.maxModelSteps
      && r.seen == l.seen && r.progressRevision == l.progressRevision == r.lastModelRevision
      && (l.modelSteps == 0 ==> r.noProgress == l.noProgress)
      && (l.modelSteps > 0 ==>
           r.noProgress == if l.progressRevision == l.lastModelRevision then l.noProgress + 1 else 0)
      && (l.modelSteps > 0 && l.progressRevision == l.lastModelRevision ==> r.noProgress < limits.maxNoProgress)
  {}

  lemma ModelCallKeeps(limits: PolicyLimits, reg: Registry, h: History, now: int)
    requires ProgressInv(limits, h) && BeforeModelCall(limits, h.ledger, now).violation.None?
    ensures ProgressInv(limits, Record(limits, reg, h, ModelCall(now)))
  {
    var l := h.ledger;
    ModelCallCounts(limits, l, now);
    TailAppend(h.admitted, l.seen);
    if h.admitted != [] { GrowingSeen(h.admitted[|h.admitted| - 1], l.seen); }
    GrowingAppend(h.admitted, l.seen);
    StretchAppend(h.admitted, l.seen, limits.maxNoProgress);
  }

  lemma ProgressKept(limits: PolicyLimits, reg: Registry, h: History, op: LedgerOp)
    requires ProgressInv(limits, h) && Perform(limits, reg, h.ledger, op).violation.None?
    ensures ProgressInv(limits, Record(limits, reg, h, op))
  {
    if op.ModelCall? { ModelCallKeeps(limits, reg, h, op.now); } else { OtherOpsGrow(limits, reg, h.ledger, op); }
  }

  /** A reservation without violation adopts the counters of its batch. */
  lemma ReserveFields(limits: PolicyLimits, reg: Registry, l: Ledger, calls: seq<RawCall>, now: int)
    requires calls != [] && ReserveToolCalls(limits, reg, l, calls, now).violation.None?
    ensures var b := ExamineBatch(limits, reg, EmptyBatch(l), calls); var r := ReserveToolCalls(limits, reg, l, calls, now).ledger;
      && b.violation.None? && r.attempted == l.attempted + |calls| <= limits.maxToolCalls
      && r.lastFingerprint == b.last && r.identical == b.identical
      && r.started == l.started && r.reservations == l.reservations + b.pending
  {}

  lemma BatchReserves(limits: PolicyLimits, reg: Registry, h: History, l: Ledger, calls: seq<RawCall>, now: int)
    requires ReservationInv(limits, h.(ledger := l)) && calls != []
    requires ReserveToolCalls(limits, reg, l, calls, now).violation.None?
    ensures ReservationInv(limits, History(ReserveToolCalls(limits, reg, l, calls, now).ledger, h.reserved + Fingerprints(reg, calls), h.admitted))
  {
    ReserveFields(limits, reg, l, calls, now);
    BatchKeeps(limits, reg, EmptyBatch(l), calls, h.reserved);
    BatchAllOrNothing(limits, reg, l, calls, now);
    BatchAdopted(limits, h.(ledger := l), ReserveToolCalls(limits, reg, l, calls, now).ledger,
                 ExamineBatch(limits, reg, EmptyBatch(l), calls), Fingerprints(reg, calls));
  }

  lemma BatchAdopted(limits: PolicyLimits, h: History, r: Ledger, b: Batch, more: seq<Fingerprint>)
    requires ReservationInv(limits, h) && BatchTracks(limits, b, h.reserved + more)
    requires r.attempted == h.ledger.attempted + |more| <= limits.maxToolCalls
    requires |r.reservations| == |h.ledger.reservations| + |more| && r.reservations.Keys >= h.ledger.reservations.Keys
    requires r.lastFingerprint == b.last && r.identical == b.identical && r.started == h.ledger.started
    ensures ReservationInv(limits, History(r, h.reserved + more, h.admitted))
  {}

  lemma ResponseKeeps(limits: PolicyLimits, reg: Registry, h: History, texts: seq<string>, calls: seq<RawCall>,
                      now: int)
    requires ReservationInv(limits, h) && h.ledger.progressRevision == |h.ledger.seen|
    requires AfterModelResponse(limits, reg, h.ledger, texts, calls, now).violation.None?
    ensures ReservationInv(limits, Record(limits, reg, h, ModelResponse(texts, calls, now)))
  {
    TextsGrow(h.ledger, texts);
    var l := RecordTexts(h.ledger, texts);
    QuietReservation(limits, h, l, h.admitted);
    if calls == [] {
      assert h.reserved + Fingerprints(reg, calls) == h.reserved;
    } else {
      BatchReserves(limits, reg, h, l, calls, now);
    }
  }

  lemma QuietReservation(limits: PolicyLimits, h: History, r: Ledger, admitted: seq<set<ProgressKey>>)
    requires ReservationInv(limits, h) && SameReservations(h.ledger, r)
    ensures ReservationInv(limits, History(r, h.reserved, admitted))
  {}

  lemma ModelCallReserves(limits: PolicyLimits, l: Ledger, now: int)
    ensures SameReservations(l, BeforeModelCall(limits, l, now).ledger)
  {}

  lemma ReservationKept(limits: PolicyLimits, reg: Registry, h: History, op: LedgerOp)
    requires ReservationInv(limits, h) && h.ledger.progressRevision == |h.ledger.seen|
    requires Perform(limits, reg, h.ledger, op).violation.None?
    ensures ReservationInv(limits, Record(limits, reg, h, op))
  {
    if op.ModelResponse? {
      ResponseKeeps(limits, reg, h, op.texts, op.calls, op.now);
    } else {
      var next := Record(limits, reg, h, op);
      match op {
        case FinishTool(id, tool, sound, outcome, now) => FinishChanges(limits, reg, h.ledger, id, tool, sound, outcome, now);
        case ModelCall(now) => ModelCallReserves(limits, h.ledger, now);
        case _ => LifecycleChanges(limits, reg, h.ledger, op);
      }
      QuietReservation(limits, h, next.ledger, next.admitted);
    }
  }

  lemma ConstantStretch(s: seq<set<ProgressKey>>, i: nat, j: nat)
    requires Growing(s) && i <= j < |s| && s[i] == s[j]
    ensures AllEqual(s, i, j)
  {
    forall k | i <= k <= j ensures s[k] == s[i] {
      assert s[i] <= s[k] <= s[j];
    }
  }

  lemma {:induction false} PlayInv(limits: PolicyLimits, reg: Registry, ops: seq<LedgerOp>)
    ensures var h := Play(limits, reg, ops);
      h.Some? ==> ReservationInv(limits, h.value) && ProgressInv(limits, h.value)
  {
    if ops != [] {
      PlayInv(limits, reg, ops[..|ops| - 1]);
      var before := Play(limits, reg, ops[..|ops| - 1]);
      if Play(limits, reg, ops).Some? {
        ReservationKept(limits, reg, before.value, ops[|ops| - 1]);
        ProgressKept(limits, reg, before.value, ops[|ops| - 1]);
      }
    }
  }

  /**
    Every budget on every history without violation: model calls, tool calls,
    repeated calls, and new progress within any `maxNoProgress` + 1 consecutive model calls.
  */
  lemma BudgetsHold(limits: PolicyLimits, reg: Registry, ops: seq<LedgerOp>)
    requires Play(limits, reg, ops).Some?
    ensures var h := Play(limits, reg, ops).value;
      && |h.admitted| <= limits.maxModelSteps
      && |h.reserved| == |h.ledger.reservations| <= limits.maxToolCalls
      && NoStretchBeyond(h.reserved, limits.maxIdentical)
      && forall i :: 0 <= i && i + limits.maxNoProgress < |h.admitted| ==>
           h.admitted[i] < h.admitted[i + limits.maxNoProgress]
  {
    PlayInv(limits, reg, ops);
    var h := Play(limits, reg, ops).value;
    var m := limits.maxNoProgress;
    forall i | 0 <= i && i + m < |h.admitted| ensures h.admitted[i] < h.admitted[i + m] {
      if h.admitted[i] == h.admitted[i + m] { ConstantStretch(h.admitted, i, i + m); }
    }
  }
}
