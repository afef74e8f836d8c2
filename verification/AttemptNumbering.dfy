/** How the attempts of a run are numbered, on every history of the usage ledger (usage.py). */
module AttemptNumbering {
  import opened Common
  import opened RunRecords
  import opened UsageLedger
  import opened Metering

  /** A later try follows a finished one of the same call. */
  predicate FollowsFinished(m: Memory, a: Attempt) {
    a.attemptIndex > 1 ==>
      exists id :: id in m.attempts && m.attempts[id].callIndex == a.callIndex
                   && m.attempts[id].attemptIndex + 1 == a.attemptIndex && !m.attempts[id].status.Open?
  }

  predicate WellPlaced(m: Memory, id: string)
    requires id in m.attempts
  {
    var a := m.attempts[id];
    1 <= a.callIndex < m.nextCall && 1 <= a.attemptIndex && FollowsFinished(m, a)
  }

  predicate SamePlace(a: Attempt, b: Attempt) { a.callIndex == b.callIndex && a.attemptIndex == b.attemptIndex }

  /**
    No two attempts have the same place; calls count up; the tries of a call are 1, 2, 3, each after the last
    one finished.
  */
  ghost predicate WellNumbered(m: Memory) {
    && m.nextCall >= 1 && (forall id :: id in m.attempts ==> WellPlaced(m, id))
    && (forall id, other :: id in m.attempts && other in m.attempts && id != other ==> !SamePlace(m.attempts[id], m.attempts[other]))
  }

  /** Places stay, finished attempts stay finished, call numbers only grow. */
  ghost predicate KeepsPlaces(m: Memory, r: Memory) {
    && r.attempts.Keys == m.attempts.Keys && r.nextCall >= m.nextCall
    && forall id :: id in m.attempts ==>
         SamePlace(m.attempts[id], r.attempts[id]) && (!m.attempts[id].status.Open? ==> !r.attempts[id].status.Open?)
  }

  lemma PlacesKept(m: Memory, r: Memory)
    requires WellNumbered(m) && KeepsPlaces(m, r)
    ensures WellNumbered(r)
  {
    forall id | id in r.attempts ensures WellPlaced(r, id) {
      assert WellPlaced(m, id);
      if m.attempts[id].attemptIndex > 1 {
        var p :| p in m.attempts && m.attempts[p].callIndex == m.attempts[id].callIndex
          && m.attempts[p].attemptIndex + 1 == m.attempts[id].attemptIndex && !m.attempts[p].status.Open?;
        assert p in r.attempts && SamePlace(m.attempts[p], r.attempts[p]);
      }
    }
    forall id, other | id in r.attempts && other in r.attempts && id != other
      ensures !SamePlace(r.attempts[id], r.attempts[other])
    {
      assert !SamePlace(m.attempts[id], m.attempts[other]);
    }
  }

  lemma BegunNumbered(m: Memory, id: string, retryOf: Option<string>, kind: CallKind)
    requires WellNumbered(m) && id !in m.attempts && NextPosition(m, retryOf).Ok?
    ensures WellNumbered(Begun(CountCall(m, retryOf), id, NextPosition(m, retryOf).value, kind))
  {
    var p := NextPosition(m, retryOf).value;
    var r := Begun(CountCall(m, retryOf), id, p, kind);
    PlaceIsNew(m, retryOf);
    PlaceFollows(m, r, id, retryOf);
    AddedNumbered(m, r, id);
  }

  /** The next place is taken by nobody, and below the next call number. */
  lemma PlaceIsNew(m: Memory, retryOf: Option<string>)
    requires WellNumbered(m) && NextPosition(m, retryOf).Ok?
    ensures var p := NextPosition(m, retryOf).value;
      && 1 <= p.callIndex < CountCall(m, retryOf).nextCall && 1 <= p.attemptIndex && !PositionTaken(m, p.callIndex, p.attemptIndex)
  {
    if retryOf.Some? { assert WellPlaced(m, retryOf.value); } else {
      forall id | id in m.attempts ensures m.attempts[id].callIndex < m.nextCall { assert WellPlaced(m, id); }
    }
  }

  /** A retry comes right after its parent, which has finished. */
  lemma PlaceFollows(m: Memory, r: Memory, id: string, retryOf: Option<string>)
    requires WellNumbered(m) && id !in m.attempts && NextPosition(m, retryOf).Ok?
    requires r.attempts.Keys == m.attempts.Keys + {id} && forall o :: o in m.attempts ==> r.attempts[o] == m.attempts[o]
    requires r.attempts[id].callIndex == NextPosition(m, retryOf).value.callIndex
    requires r.attempts[id].attemptIndex == NextPosition(m, retryOf).value.attemptIndex
    ensures FollowsFinished(r, r.attempts[id])
  {
    if retryOf.Some? { assert r.attempts[retryOf.value] == m.attempts[retryOf.value]; }
  }

  lemma AddedNumbered(m: Memory, r: Memory, id: string)
    requires WellNumbered(m) && id !in m.attempts && r.nextCall >= m.nextCall
    requires r.attempts.Keys == m.attempts.Keys + {id} && forall o :: o in m.attempts ==> r.attempts[o] == m.attempts[o]
    requires var a := r.attempts[id];
      1 <= a.callIndex < r.nextCall && 1 <= a.attemptIndex && !PositionTaken(m, a.callIndex, a.attemptIndex) && FollowsFinished(r, a)
    ensures WellNumbered(r)
  {
    forall other | other in r.attempts ensures WellPlaced(r, other) {
      if other != id {
        assert WellPlaced(m, other);
        OlderFollows(m, r, m.attempts[other]);
      }
    }
    forall one, other | one in r.attempts && other in r.attempts && one != other
      ensures !SamePlace(r.attempts[one], r.attempts[other])
    {
      if one != id && other != id { assert !SamePlace(m.attempts[one], m.attempts[other]); }
    }
  }

  lemma OlderFollows(m: Memory, r: Memory, a: Attempt)
    requires FollowsFinished(m, a) && forall id :: id in m.attempts ==>
      id in r.attempts && r.attempts[id] == m.attempts[id]
    ensures FollowsFinished(r, a)
  {
    if a.attemptIndex > 1 {
      var p :| p in m.attempts && m.attempts[p].callIndex == a.callIndex
        && m.attempts[p].attemptIndex + 1 == a.attemptIndex && !m.attempts[p].status.Open?;
      assert p in r.attempts && r.attempts[p] == m.attempts[p];
    }
  }

  lemma ObservePlaces(m: Memory, id: string, usage: Tokens)
    ensures KeepsPlaces(m, Observed(m, id, usage).0)
  {}

  lemma RequestPlaces(m: Memory, id: string, status: AttemptStatus)
    ensures KeepsPlaces(m, FinishRequested(m, id, status).0)
  {}

  lemma SettlePlaces(s: Meter, id: string, now: int)
    ensures KeepsPlaces(s.memory, SettleOne(s, id, now).memory)
  {}

  lemma StepPlaces(s: Meter, step: MeterStep)
    requires !step.Begin?
    ensures KeepsPlaces(s.memory, MeterNext(s, step).memory)
  {
    match step
    case Observe(id, usage) => ObservePlaces(s.memory, id, usage);
    case RequestFinish(id, status) => RequestPlaces(s.memory, id, status);
    case CommitFinish(now) => if s.holder.Finishing? { SettlePlaces(s, s.holder.id, now); }
    case SettleNext(now) => if s.holder.Settling? && s.holder.todo != [] { SettlePlaces(s, s.holder.todo[0], now); }
    case _ =>
  }

  lemma StepNumbered(s: Meter, step: MeterStep)
    requires WellNumbered(s.memory)
    ensures WellNumbered(MeterNext(s, step).memory)
  {
    if step.Begin? {
      BeginNumbered(s, step.id, step.kind, step.retryOf, step.now, step.confirmed);
    } else {
      StepPlaces(s, step);
      PlacesKept(s.memory, MeterNext(s, step).memory);
    }
  }

  lemma BeginNumbered(s: Meter, id: string, kind: CallKind, retryOf: Option<string>, now: int, confirmed: bool)
    requires WellNumbered(s.memory)
    ensures WellNumbered(BeginStep(s, id, kind, retryOf, now, confirmed).memory)
  {
    var r := BeginStep(s, id, kind, retryOf, now, confirmed).memory;
    if r.attempts.Keys == s.memory.attempts.Keys {
      PlacesKept(s.memory, r);
    } else {
      BegunNumbered(s.memory, id, retryOf, kind);
    }
  }

  /**
    On every history: no two attempts of a run have the same call and try number, call numbers stay below the
    next one to be given, and every later try of a call follows its previous one, which had finished.
  */
  lemma {:induction false} AttemptsAreNumbered(thread: ThreadId, key: string, plan: string, now: int,
                                               steps: seq<MeterStep>)
    ensures WellNumbered(MeterTrace(NewMeter(thread, key, plan, now), steps).memory)
  {
    if steps != [] {
      AttemptsAreNumbered(thread, key, plan, now, steps[..|steps| - 1]);
      StepNumbered(MeterTrace(NewMeter(thread, key, plan, now), steps[..|steps| - 1]), steps[|steps| - 1]);
    }
  }
}
