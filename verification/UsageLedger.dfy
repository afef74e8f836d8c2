/**
  The provider-usage ledger of one run (usage.py): attempts in memory, finishes retried until
  they are durable, and the settlement that precedes a user cancellation.
*/
module UsageLedger {
  import opened Common
  import opened RunRecords

  datatype UsageError =
    | RetryParentInvalid | RetryAttemptDuplicate | AttemptNotActive | UsageConflict | AttemptUnknown | TerminalConflict
    | WriteFailed | AttemptsChanged

  datatype Finish = Finish(status: AttemptStatus, usage: Option<Tokens>)

  datatype Attempt = Attempt(
    callIndex: nat, attemptIndex: nat, kind: CallKind, status: AttemptStatus,
    usage: Option<Tokens>, usagePersisted: bool, pending: Option<Finish>)

  /** The attempts in the order they were begun. */
  datatype Memory = Memory(attempts: map<string, Attempt>, order: seq<string>, nextCall: nat)

  const NO_ATTEMPTS := Memory(map[], [], 1)

  predicate PositionTaken(m: Memory, callIndex: nat, attemptIndex: nat) {
    exists id :: id in m.attempts && m.attempts[id].callIndex == callIndex && m.attempts[id].attemptIndex == attemptIndex
  }

  datatype Position = Position(callIndex: nat, attemptIndex: nat)

  /** Where a new attempt goes: the next call, or the next try of a finished one. */
  function NextPosition(m: Memory, retryOf: Option<string>): Result<Position, UsageError> {
    if retryOf.None? then Ok(Position(m.nextCall, 1))
    else if retryOf.value !in m.attempts || m.attempts[retryOf.value].status.Open? then Err(RetryParentInvalid)
    else
      var p := m.attempts[retryOf.value];
      if PositionTaken(m, p.callIndex, p.attemptIndex + 1) then Err(RetryAttemptDuplicate)
      else Ok(Position(p.callIndex, p.attemptIndex + 1))
  }

  /** An attempt another coroutine begins while a durable write is awaited. */
  datatype Arrival = Arrival(id: string, position: Position, kind: CallKind)

  function Joined(m: Memory, a: Arrival): Memory { Begun(m, a.id, a.position, a.kind) }

  /** The first `n` attempts needed no write, or a write that succeeded with nothing begun meanwhile. */
  ghost predicate WritesDone(m: Memory, ids: seq<string>, written: string -> bool, begun: nat -> Option<Arrival>,
                             n: nat)
    requires n <= |ids|
  {
    forall i :: 0 <= i < n && NeedsWrite(m, ids[i]) ==> written(ids[i]) && begun(i).None?
  }

  /** How far a settlement came, why it stopped, and what it left. */
  ghost predicate SettledTo(before: Memory, ids: seq<string>, written: string -> bool, begun: nat -> Option<Arrival>,
                            settled: nat, error: Option<UsageError>, after: Memory) {
    if error.None? then
      settled == |ids| && WritesDone(before, ids, written, begun, settled) && after == SettledAll(before, ids)
    else if error.value.WriteFailed? then
      && settled < |ids| && WritesDone(before, ids, written, begun, settled)
      && NeedsWrite(before, ids[settled]) && !written(ids[settled])
      && after == SettledAll(before, ids[..settled])
    else
      && error.value.AttemptsChanged? && 0 < settled <= |ids| && WritesDone(before, ids, written, begun, settled - 1)
      && NeedsWrite(before, ids[settled - 1]) && written(ids[settled - 1]) && begun(settled - 1).Some?
      && after == Joined(SettledAll(before, ids[..settled]), begun(settled - 1).value)
  }

  /** One attempt's part of a settlement, with what was begun while its write was awaited. */
  ghost predicate Turned(m: Memory, id: string, written: bool, begun: Option<Arrival>, error: Option<UsageError>,
                         after: Memory) {
    if NeedsWrite(m, id) && !written then error == Some(WriteFailed) && after == m
    else if NeedsWrite(m, id) && begun.Some? then error == Some(AttemptsChanged) && after == Joined(SettledOne(m, id), begun.value)
    else error == None && after == SettledOne(m, id)
  }

  /** A call number is used up even when the start is never written. */
  function CountCall(m: Memory, retryOf: Option<string>): Memory {
    if retryOf.None? then m.(nextCall := m.nextCall + 1) else m
  }

  function Begun(m: Memory, id: string, p: Position, kind: CallKind): Memory {
    m.(attempts := m.attempts[id := Attempt(p.callIndex, p.attemptIndex, kind, Open, None, false, None)],
       order := if id in m.attempts then m.order else m.order + [id])
  }

  function Observed(m: Memory, id: string, usage: Tokens): (Memory, Option<UsageError>) {
    if id !in m.attempts || !m.attempts[id].status.Open? then (m, Some(AttemptNotActive))
    else if m.attempts[id].usage.None? then (m.(attempts := m.attempts[id := m.attempts[id].(usage := Some(usage))]), None)
    else (m, if m.attempts[id].usage.value != usage then Some(UsageConflict) else None)
  }

  /** The part of a finish before the persistence lock: the finish is fixed by its first caller. */
  function FinishRequested(m: Memory, id: string, status: AttemptStatus): (Memory, Option<UsageError>) {
    if id !in m.attempts then (m, Some(AttemptUnknown))
    else
      var a := m.attempts[id];
      if !a.status.Open? then (m, if a.status == status then None else Some(TerminalConflict))
      else if a.pending.None? then (m.(attempts := m.attempts[id := a.(pending := Some(Finish(status, a.usage)))]), None)
      else (m, if a.pending.value != Finish(status, a.usage) then Some(TerminalConflict) else None)
  }

  predicate Waiting(m: Memory, id: string) {
    id in m.attempts && m.attempts[id].status.Open? && m.attempts[id].pending.Some?
  }

  function FinishPersisted(m: Memory, id: string): Memory
    requires Waiting(m, id)
  {
    var a := m.attempts[id];
    m.(attempts := m.attempts[id := a.(status := a.pending.value.status, usagePersisted := a.pending.value.usage.Some?, pending := None)])
  }

  predicate MustRecord(m: Memory, id: string) {
    id in m.attempts && m.attempts[id].status.Open? && m.attempts[id].pending.None?
    && m.attempts[id].usage.Some? && !m.attempts[id].usagePersisted
  }

  function UsageRecorded(m: Memory, id: string): Memory
    requires id in m.attempts
  {
    m.(attempts := m.attempts[id := m.attempts[id].(usagePersisted := true)])
  }

  /** What settling does for one attempt once its write succeeded. */
  function SettledOne(m: Memory, id: string): Memory {
    if Waiting(m, id) then FinishPersisted(m, id) else if MustRecord(m, id) then UsageRecorded(m, id) else m
  }

  function SettledAll(m: Memory, ids: seq<string>): Memory {
    if ids == [] then m else SettledOne(SettledAll(m, ids[..|ids| - 1]), ids[|ids| - 1])
  }

  /** Whether settling one attempt needs a durable write. */
  predicate NeedsWrite(m: Memory, id: string) { Waiting(m, id) || MustRecord(m, id) }

  lemma {:induction false} SettledKeepsOthers(m: Memory, ids: seq<string>, id: string)
    requires id !in ids
    ensures SettledAll(m, ids).order == m.order && SettledAll(m, ids).attempts.Keys == m.attempts.Keys
    ensures id in m.attempts ==> SettledAll(m, ids).attempts[id] == m.attempts[id]
  {
    if ids != [] { SettledKeepsOthers(m, ids[..|ids| - 1], id); }
  }

  class RunUsageLedger {
    var attempts: map<string, Attempt>
    var order: seq<string>
    var nextCall: nat

    function Contents(): Memory
      reads this
    {
      Memory(attempts, order, nextCall)
    }

    constructor ()
      ensures Contents() == NO_ATTEMPTS
    {
      attempts, order, nextCall := map[], [], 1;
    }

    /** `written` is the answer of the durable start writer; `id` is fresh. */
    method BeginAttempt(id: string, kind: CallKind, retryOf: Option<string>, written: bool)
      returns (r: Result<string, UsageError>)
      requires id !in attempts
      modifies this
      ensures var p := NextPosition(old(Contents()), retryOf);
        if p.Err? then r == Err(p.error) && Contents() == old(Contents())
        else if !written then r == Err(WriteFailed) && Contents() == CountCall(old(Contents()), retryOf)
        else r == Ok(id) && Contents() == Begun(CountCall(old(Contents()), retryOf), id, p.value, kind)
    {
      var p := NextPosition(Contents(), retryOf);
      if p.Err? { return Err(p.error); }
      if retryOf.None? { nextCall := nextCall + 1; }
      if !written { return Err(WriteFailed); }
      attempts := attempts[id := Attempt(p.value.callIndex, p.value.attemptIndex, kind, Open, None, false, None)];
      order := order + [id];
      r := Ok(id);
    }

    method ObserveUsage(id: string, usage: Tokens) returns (error: Option<UsageError>)
      modifies this`attempts
      ensures Observed(old(Contents()), id, usage) == (Contents(), error)
    {
      if id !in attempts || !attempts[id].status.Open? { return Some(AttemptNotActive); }
      if attempts[id].usage.None? {
        attempts := attempts[id := attempts[id].(usage := Some(usage))];
        return None;
      }
      error := if attempts[id].usage.value != usage then Some(UsageConflict) else None;
    }

    method RequestFinish(id: string, status: AttemptStatus) returns (error: Option<UsageError>)
      modifies this`attempts
      ensures FinishRequested(old(Contents()), id, status) == (Contents(), error)
    {
      if id !in attempts { return Some(AttemptUnknown); }
      var a := attempts[id];
      if !a.status.Open? { return if a.status == status then None else Some(TerminalConflict); }
      var finish := Finish(status, a.usage);
      if a.pending.None? {
        attempts := attempts[id := a.(pending := Some(finish))];
      } else if a.pending.value != finish {
        return Some(TerminalConflict);
      }
      error := None;
    }

    /** Under the persistence lock: a failed write leaves the finish waiting for a retry. */
    method PersistPendingFinish(id: string, written: bool) returns (error: Option<UsageError>)
      requires Waiting(Contents(), id)
      modifies this`attempts
      ensures Contents() == (if written then FinishPersisted(old(Contents()), id) else old(Contents()))
      ensures error == if written then None else Some(WriteFailed)
    {
      if !written { return Some(WriteFailed); }
      var a := attempts[id];
      attempts := attempts[id := a.(status := a.pending.value.status, usagePersisted := a.pending.value.usage.Some?, pending := None)];
      error := None;
    }

    /**
      Settle the attempts in order over the live dictionary: `written` answers the writers, and
      `begun(i)` is what another coroutine begins while the write of the i-th attempt is awaited.
      The walk ends early at the first write that fails or after the first such arrival.
    */
    method SettleForTerminal(written: string -> bool, begun: nat -> Option<Arrival>)
      returns (settled: nat, error: Option<UsageError>)
      requires Distinct(order) && forall id :: id in order ==> id in attempts
      requires forall i :: begun(i).Some? ==> begun(i).value.id !in attempts
      modifies this`attempts, this`order
      ensures SettledTo(old(Contents()), old(order), written, begun, settled, error, Contents())
    {
      settled, error := 0, None;
      ghost var before, ids := Contents(), order;
      var size := |order|;
      while settled < size
        invariant settled <= size == |ids| && error == None
        invariant Contents() == SettledAll(before, ids[..settled]) && WritesDone(before, ids, written, begun, settled)
      {
        SettledStep(before, ids, settled);
        error := SettleNext(settled, written, begun);
        TurnSettles(before, ids, written, begun, settled, error, Contents());
        if error != Some(WriteFailed) { settled := settled + 1; }
        if error.Some? { return; }
      }
      assert ids[..settled] == ids;
    }

    /** The turn of the `i`-th attempt. */
    method SettleNext(i: nat, written: string -> bool, begun: nat -> Option<Arrival>)
      returns (error: Option<UsageError>)
      requires i < |order| && order[i] in attempts
      requires begun(i).Some? ==> begun(i).value.id !in attempts
      modifies this`attempts, this`order
      ensures Turned(old(Contents()), old(order)[i], written(old(order)[i]), begun(i), error, Contents())
    {
      var id := order[i];
      var awaited := NeedsWrite(Contents(), id);
      ghost var before := Contents();
      error := SettleAttempt(id, written(id));
      if error.None? && awaited && begun(i).Some? {
        assert Contents() == SettledOne(before, id);
        JoinAttempts(begun(i).value);
        error := Some(AttemptsChanged);
      }
    }

    /** Another coroutine's attempt joins while a write is awaited. */
    method JoinAttempts(a: Arrival)
      requires a.id !in attempts
      modifies this`attempts, this`order
      ensures Contents() == Joined(old(Contents()), a)
    {
      attempts := attempts[a.id := Attempt(a.position.callIndex, a.position.attemptIndex, a.kind, Open, None, false, None)];
      order := order + [a.id];
    }

    /** One attempt of a settlement: a waiting finish first, else an observed usage that is not yet durable. */
    method SettleAttempt(id: string, written: bool) returns (error: Option<UsageError>)
      requires id in attempts
      modifies this`attempts
      ensures Contents() == (if NeedsWrite(old(Contents()), id) && !written then old(Contents()) else SettledOne(old(Contents()), id))
      ensures error == if NeedsWrite(old(Contents()), id) && !written then Some(WriteFailed) else None
    {
      error := None;
      var a := attempts[id];
      if !a.status.Open? { return; }
      if a.pending.Some? {
        error := PersistPendingFinish(id, written);
      } else if a.usage.Some? && !a.usagePersisted {
        if !written { return Some(WriteFailed); }
        attempts := attempts[id := a.(usagePersisted := true)];
      }
    }
  }

  /** What the turn of the `i`-th attempt means for the whole settlement. */
  lemma TurnSettles(before: Memory, ids: seq<string>, written: string -> bool, begun: nat -> Option<Arrival>, i: nat,
                    error: Option<UsageError>, after: Memory)
    requires i < |ids| && Distinct(ids) && WritesDone(before, ids, written, begun, i)
    requires Turned(SettledAll(before, ids[..i]), ids[i], written(ids[i]), begun(i), error, after)
    ensures error.None? ==> after == SettledAll(before, ids[..i + 1]) && WritesDone(before, ids, written, begun, i + 1)
    ensures error.Some? ==>
      SettledTo(before, ids, written, begun, if error == Some(WriteFailed) then i else i + 1, error, after)
  {
    SettledStep(before, ids, i);
  }

  lemma SettledStep(m: Memory, ids: seq<string>, i: nat)
    requires i < |ids| && Distinct(ids)
    ensures SettledAll(m, ids[..i + 1]) == SettledOne(SettledAll(m, ids[..i]), ids[i])
    ensures NeedsWrite(SettledAll(m, ids[..i]), ids[i]) == NeedsWrite(m, ids[i])
    ensures SettledAll(m, ids[..i]).attempts.Keys == m.attempts.Keys
    ensures SettledAll(m, ids[..i + 1]).attempts.Keys == m.attempts.Keys
    ensures SettledAll(m, ids[..i + 1]).order == m.order && SettledAll(m, ids[..i + 1]).nextCall == m.nextCall
  {
    assert ids[..i + 1][..i] == ids[..i];
    SettledKeepsOthers(m, ids[..i], ids[i]);
    SettledKeepsKeys(m, ids[..i]);
    SettledKeepsKeys(m, ids[..i + 1]);
  }

  lemma {:induction false} SettledKeepsKeys(m: Memory, ids: seq<string>)
    ensures SettledAll(m, ids).attempts.Keys == m.attempts.Keys
    ensures SettledAll(m, ids).order == m.order && SettledAll(m, ids).nextCall == m.nextCall
  {
    if ids != [] { SettledKeepsKeys(m, ids[..|ids| - 1]); }
  }
}
