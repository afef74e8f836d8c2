/**
  One repository transaction and the caller that waits for it (service.py): the transaction is
  cancelled by its own deadline only, and the caller leaves in bounded time.
*/
module RepositoryCall {
  import opened Common

  /**
    A transaction left alone would end at `endsAt`. Its own deadline cancels it once if it is
    still running then, after which it needs `unwind` to roll back, or never settles.
  */
  datatype Child<T> = Child(endsAt: int, outcome: Result<T, string>, unwind: Option<nat>)

  /** When the transaction has settled, if ever, and with what. */
  function SettledAt<T>(c: Child<T>, deadline: int): Option<int> {
    if c.endsAt <= deadline then Some(c.endsAt)
    else if c.unwind.Some? then Some(deadline + c.unwind.value)
    else None
  }

  function Settlement<T>(c: Child<T>, deadline: int): Result<T, string> {
    if c.endsAt <= deadline then c.outcome else Err("timeout")
  }

  datatype CallResult<T> = Returned(value: T) | Raised(error: string) | CallerCancelled | CleanupTimeout

  function Later(a: int, b: int): int { if a < b then b else a }

  predicate Settled<T>(c: Child<T>, deadline: int, now: int) {
    SettledAt(c, deadline).Some? && SettledAt(c, deadline).value <= now
  }

  predicate Ascending(times: seq<int>) { forall i, j :: 0 <= i < j < |times| ==> times[i] <= times[j] }

  /** The tasks a service has given up waiting for. */
  class Quarantine {
    var tasks: set<nat>

    constructor ()
      ensures tasks == {}
    {
      tasks := {};
    }

    /**
      Wait for the transaction until its deadline plus the grace, however often the caller is
      cancelled meanwhile (at the times `cancels`); a child that has not settled by then, and
      only such a child, is quarantined. `childCancels` counts the cancellations the child receives.
    */
    method FinishRepositoryCall<T(0)>(task: nat, child: Child<T>, start: int, deadline: int, grace: nat,
                                  cancels: seq<int>)
      returns (result: CallResult<T>, left: int, childCancels: nat)
      requires Ascending(cancels) && start <= child.endsAt
      modifies this
      ensures start <= left <= Later(start, deadline + grace)
      ensures childCancels == if child.endsAt <= Later(start, deadline) then 0 else 1
      ensures var due, limit := Later(start, deadline), Later(start, deadline + grace);
        && (result.CleanupTimeout? <==> !Settled(child, due, limit))
        && (result.CleanupTimeout? ==> left == limit && tasks == old(tasks) + {task})
        && (!result.CleanupTimeout? ==> Settled(child, due, left) && tasks == old(tasks))
      ensures !result.CleanupTimeout? ==> left == SettledAt(child, Later(start, deadline)).value
      ensures !result.CleanupTimeout? ==>
        result == (if exists i :: 0 <= i < |cancels| && start <= cancels[i] < left then CallerCancelled
                   else match Settlement(child, Later(start, deadline))
                        case Ok(v) => Returned(v)
                        case Err(e) => Raised(e))
    {
      var parentCancelled, now, next := false, start, 0;
      var due := Later(start, deadline); // a deadline already past cancels the child at once
      childCancels := 0;
      while true
        invariant childCancels <= 1 && (childCancels == 1 ==> child.endsAt > due)
        invariant start <= now <= Later(start, deadline + grace)
        invariant next <= |cancels|
        invariant forall i :: 0 <= i < next ==> cancels[i] <= now
        invariant parentCancelled <==> exists i :: 0 <= i < next && start <= cancels[i]
        invariant forall i :: 0 <= i < next && start <= cancels[i] ==> !Settled(child, due, cancels[i])
        invariant Settled(child, due, now) ==> now == SettledAt(child, due).value
        invariant forall i :: next <= i < |cancels| && cancels[i] < now ==> cancels[i] < start
        decreases |cancels| - next, deadline + grace - now
      {
        if childCancels == 0 && now >= due && child.endsAt > due {
          childCancels := childCancels + 1; // the child's own timeout
        }
        if Settled(child, due, now) {
          left := now;
          if parentCancelled { return CallerCancelled, left, childCancels; }
          match Settlement(child, due) {
            case Ok(v) => return Returned(v), left, childCancels;
            case Err(e) => return Raised(e), left, childCancels;
          }
        }
        var remaining := deadline + grace - now;
        if remaining <= 0 {
          tasks := tasks + {task};
          return CleanupTimeout, now, childCancels;
        }
        if next < |cancels| && cancels[next] < start {
          next := next + 1;
          continue;
        }
        var ends := SettledAt(child, due);
        var wake := if ends.Some? && ends.value < now + remaining then ends.value else now + remaining;
        if next < |cancels| && cancels[next] < wake {
          now := Later(now, cancels[next]);
          parentCancelled := true;
          next := next + 1;
        } else {
          now := wake;
        }
      }
    }
  }
}
