/**
  One runtime's cleanup boundary (agent_runtime.py): the producer is cancelled at most once, its
  futures and the futures found through their cancellations are observed, and whatever does not
  end in time is quarantined while the runtime stays unhealthy for good.
*/
module Lifecycle {
  import opened Common

  type Future = nat

  /** The futures there are, and those a cancelled future names as its unfinished cleanup. */
  datatype World = World(all: set<Future>, nested: Future -> set<Future>)

  ghost predicate Closed(w: World) {
    forall f :: f in w.all ==> (w.nested)(f) <= w.all && f !in (w.nested)(f)
  }

  /** What one bounded wait reports; only a wait that leaves something unfinished must take time. */
  datatype Wait =
    | AllDone(elapsed: nat)
    | TimedOut(finished: set<Future>, elapsed: nat)
    | ParentCancelled(finished: set<Future>)

  /** Every cleanup future found so far is observed, quarantined, or still in the caller's hands. */
  ghost predicate TrackedIn(w: World, observed: set<Future>, quarantined: set<Future>, held: set<Future>) {
    forall f, g :: f in observed && g in (w.nested)(f) ==> g in observed || g in quarantined || g in held
  }

  ghost predicate BoundedIn(w: World, observed: set<Future>, quarantined: set<Future>, done: set<Future>) {
    Closed(w) && observed <= w.all && quarantined <= w.all && observed <= done
  }

  datatype Finish = Normal | CleanupTimeout

  function FinishedBy(a: Wait): set<Future> {
    match a
    case AllDone(_) => {}
    case TimedOut(finished, _) => finished
    case ParentCancelled(finished) => finished
  }

  function AllFinishedBy(answers: seq<Wait>): set<Future> {
    if answers == [] then {} else AllFinishedBy(answers[..|answers| - 1]) + FinishedBy(answers[|answers| - 1])
  }

  lemma {:induction false} FinishedByOne(answers: seq<Wait>, i: nat)
    requires i < |answers|
    ensures FinishedBy(answers[i]) <= AllFinishedBy(answers)
  {
    if i < |answers| - 1 { FinishedByOne(answers[..|answers| - 1], i); }
  }

  /** The answers of all waits: some in turn, then the same one again; every run of the loop is finite. */
  datatype Waits = Waits(first: seq<Wait>, rest: Wait) {
    function At(turn: nat): Wait { if turn < |first| then first[turn] else rest }

    /** What the answers report as finished, apart from what is pending when everything is done. */
    function Reported(): set<Future> { AllFinishedBy(first) + FinishedBy(rest) }

    predicate SomeAllDone() { rest.AllDone? || exists i :: 0 <= i < |first| && first[i].AllDone? }

    /** Every wait ends at once with everything done. */
    predicate AllPrompt() { rest == AllDone(0) && forall i :: 0 <= i < |first| ==> first[i] == AllDone(0) }

    lemma AtFacts(turn: nat)
      ensures FinishedBy(At(turn)) <= Reported()
      ensures At(turn).AllDone? ==> SomeAllDone()
      ensures AllPrompt() ==> At(turn) == AllDone(0)
    {
      if turn < |first| { FinishedByOne(first, turn); }
    }
  }

  /** Found through the cancellation of a future that has just been observed. */
  ghost predicate JustFound(w: World, before: set<Future>, after: set<Future>, g: Future) {
    exists f :: f in after && f !in before && g in (w.nested)(f)
  }

  /** Observing some of the pending futures replaces them by the cleanup they reveal. */
  ghost predicate Advanced(w: World, pending: set<Future>, before: set<Future>, next: set<Future>, after: set<Future>) {
    && before <= after && (forall f :: f in after && f !in before ==> f in pending)
    && (forall g :: g in next ==> g in pending || JustFound(w, before, after, g))
    && (forall f, g :: f in after && f !in before && g in (w.nested)(f) ==> g in next)
    && (forall g :: g in pending ==> g in after || g in next)
  }

  class RuntimeLifecycle {
    const world: World
    const grace: nat
    var quarantined: set<Future>
    var observed: set<Future>
    var fatal: bool
    // the event loop: which futures are done, which have a cancellation request, every request this object made, the time
    var done: set<Future>
    var cancelling: set<Future>
    var cancelled: seq<Future>
    var clock: int

    constructor (world: World, grace: nat)
      requires Closed(world)
      ensures Valid() && Healthy() && this.world == world && this.grace == grace && cancelled == []
      ensures quarantined == {} && observed == {} && done == {}
    {
      this.world, this.grace := world, grace;
      quarantined, observed, fatal := {}, {}, false;
      done, cancelling, cancelled, clock := {}, {}, [], 0;
    }

    ghost predicate Valid()
      reads this
    {
      BoundedIn(world, observed, quarantined, done) && TrackedIn(world, observed, quarantined, {}) && (!fatal ==> quarantined == {})
    }

    predicate Healthy()
      reads this
    {
      !fatal
    }

    /** Consume one terminal result; only the first observation reveals the nested cleanup. */
    method Observe(f: Future, ghost held: set<Future>) returns (found: set<Future>)
      requires BoundedIn(world, observed, quarantined, done)
      requires TrackedIn(world, observed, quarantined, held + {f}) && f in done && f in world.all
      modifies this`observed
      ensures observed == old(observed) + {f} && BoundedIn(world, observed, quarantined, done)
      ensures TrackedIn(world, observed, quarantined, held + found)
      ensures found == (if f in old(observed) then {} else (world.nested)(f)) && found <= world.all
    {
      if f in observed { return {}; }
      observed := observed + {f};
      found := (world.nested)(f);
    }

    /** One future of a quarantine: observed if it is done, kept with a callback if it is not. */
    method QuarantineOne(f: Future, ghost held: set<Future>)
      requires BoundedIn(world, observed, quarantined, done)
      requires TrackedIn(world, observed, quarantined, held + {f}) && f in world.all
      modifies this`observed, this`quarantined
      ensures BoundedIn(world, observed, quarantined, done)
      ensures TrackedIn(world, observed, quarantined, held) && (f in observed || f in quarantined)
      ensures old(observed) <= observed && old(quarantined) <= quarantined
      ensures forall g :: g in quarantined && g !in old(quarantined) ==> g !in done
      decreases |world.all - observed|, 0
    {
      if f in done {
        var nested := Observe(f, held);
        if nested != {} {
          Shrinks(world.all, old(observed), observed, f);
          Quarantine(nested, held);
        }
      } else {
        quarantined := quarantined + {f};
      }
    }

    /** Every given future ends up observed, if it is done, or quarantined, with all the cleanup this reveals. */
    method Quarantine(futures: set<Future>, ghost held: set<Future>)
      requires BoundedIn(world, observed, quarantined, done)
      requires TrackedIn(world, observed, quarantined, held + futures) && futures <= world.all
      modifies this`observed, this`quarantined
      ensures BoundedIn(world, observed, quarantined, done) && TrackedIn(world, observed, quarantined, held) && forall g :: g in futures ==> g in observed || g in quarantined
      ensures old(observed) <= observed && old(quarantined) <= quarantined
      ensures forall g :: g in quarantined && g !in old(quarantined) ==> g !in done
      decreases |world.all - observed|, 1
    {
      var todo := futures;
      while todo != {}
        invariant todo <= futures && BoundedIn(world, observed, quarantined, done)
        invariant TrackedIn(world, observed, quarantined, held + todo)
        invariant forall g :: g in futures && g !in todo ==> g in observed || g in quarantined
        invariant old(observed) <= observed && old(quarantined) <= quarantined
        invariant forall g :: g in quarantined && g !in old(quarantined) ==> g !in done
      {
        var f :| f in todo;
        assert held + todo == held + (todo - {f}) + {f};
        todo := todo - {f};
        Smaller(world.all - observed, world.all - old(observed));
        QuarantineOne(f, held + todo);
      }
      assert held + todo == held;
    }

    /** Observe every finished future of a wait and collect the cleanup they reveal. */
    method ObserveFinished(finished: set<Future>, ghost rest: set<Future>) returns (found: set<Future>)
      requires BoundedIn(world, observed, quarantined, done)
      requires TrackedIn(world, observed, quarantined, rest + finished) && finished <= done && finished <= world.all
      modifies this`observed
      ensures BoundedIn(world, observed, quarantined, done) && TrackedIn(world, observed, quarantined, rest + found)
      ensures observed == old(observed) + finished && found <= world.all
      ensures finished <= old(observed) ==> found == {}
      ensures forall f, g :: f in finished && f !in old(observed) && g in (world.nested)(f) ==> g in found
      ensures forall g :: g in found ==> JustFound(world, old(observed), observed, g)
    {
      found := {};
      var todo := finished;
      while todo != {}
        invariant todo <= finished && found <= world.all && BoundedIn(world, observed, quarantined, done)
        invariant TrackedIn(world, observed, quarantined, rest + found + todo)
        invariant observed == old(observed) + (finished - todo)
        invariant finished <= old(observed) ==> found == {}
        invariant forall f, g :: f in finished && f !in todo && f !in old(observed) && g in (world.nested)(f) ==> g in found
        invariant forall g :: g in found ==> JustFound(world, old(observed), observed, g)
      {
        ghost var before := observed;
        var f :| f in todo;
        assert rest + found + todo == rest + found + (todo - {f}) + {f};
        todo := todo - {f};
        var nested := Observe(f, rest + found + todo);
        assert rest + found + todo + nested == rest + (found + nested) + todo;
        forall g | g in found + nested ensures JustFound(world, old(observed), observed, g) {
          if g in found { JustFoundGrows(world, old(observed), before, observed, g); }
        }
        found := found + nested;
      }
      assert rest + found + todo == rest + found;
    }

    method MarkFatal()
      modifies this`fatal
      ensures fatal
    {
      fatal := true;
    }

    method GiveUp(pending: set<Future>) returns (r: Finish)
      requires BoundedIn(world, observed, quarantined, done)
      requires TrackedIn(world, observed, quarantined, pending) && pending <= world.all
      modifies this`fatal, this`observed, this`quarantined
      ensures r == CleanupTimeout && fatal && Valid()
      ensures forall g :: g in pending ==> g in observed || g in quarantined
      ensures old(observed) <= observed && old(quarantined) <= quarantined
      ensures forall g :: g in quarantined && g !in old(quarantined) ==> g !in done
    {
      MarkFatal();
      assert {} + pending == pending;
      Quarantine(pending, {});
      r := CleanupTimeout;
    }

    /** At most one cancellation of the producer, and only if nobody asked before. */
    method RequestCancel(producer: Future)
      modifies this`cancelled, this`cancelling
      ensures var ask := producer !in done && producer !in old(cancelling);
        && cancelled == old(cancelled) + (if ask then [producer] else [])
        && cancelling == old(cancelling) + (if ask then {producer} else {})
    {
      if producer !in done && producer !in cancelling {
        cancelling := cancelling + {producer};
        cancelled := cancelled + [producer];
      }
    }

    /** What one wait changes: time and finished futures. */
    method Await(pending: set<Future>, answer: Wait)
      modifies this`done, this`clock
      ensures old(done) <= done && clock >= old(clock)
      ensures done == old(done) + FinishedBy(answer) + (if answer.AllDone? then pending else {})
      ensures answer.TimedOut? ==> clock > old(clock)
      ensures answer == AllDone(0) ==> clock == old(clock)
    {
      match answer {
        case ParentCancelled(finished) => done := done + finished;
        case AllDone(elapsed) => done, clock := done + pending, clock + elapsed;
        case TimedOut(finished, elapsed) => done, clock := done + finished, clock + elapsed + 1;
      }
    }

    /** After a wait: observe what finished and go on with the rest and the cleanup it revealed. */
    method Collect(pending: set<Future>) returns (next: set<Future>)
      requires BoundedIn(world, observed, quarantined, done)
      requires TrackedIn(world, observed, quarantined, pending) && pending <= world.all
      modifies this`observed
      ensures BoundedIn(world, observed, quarantined, done) && TrackedIn(world, observed, quarantined, next)
      ensures next <= world.all && observed == old(observed) + pending * done
      ensures forall g :: g in pending ==> g in observed || g in next
      ensures |world.all - observed| <= |world.all - old(observed)|
      ensures |world.all - observed| == |world.all - old(observed)| ==> next == pending - done
      ensures Advanced(world, pending, old(observed), next, observed)
    {
      var finished := pending * done;
      assert pending == (pending - finished) + finished;
      var found := ObserveFinished(finished, pending - finished);
      next := (pending - finished) + found;
      Smaller(world.all - observed, world.all - old(observed));
      if !(finished <= old(observed)) {
        var f :| f in finished && f !in old(observed);
        Shrinks(world.all, old(observed), observed, f);
      } else {
        assert next == pending - done;
      }
    }

    /** What is left to discover, to wait for, and of the time. */
    ghost predicate Progress(before: (nat, nat, nat), after: (nat, nat, nat)) {
      after.0 < before.0 || (after.0 == before.0 && (after.1 < before.1 || (after.1 == before.1 && after.2 < before.2)))
    }

    /** The futures left, and how much there is still to discover and to wait for. */
    ghost function Left(pending: set<Future>, deadline: int): (nat, nat, nat)
      reads this`observed, this`clock
    {
      (|world.all - observed|, |pending|, if deadline > clock then deadline - clock else 0)
    }

    /** One wait and what it shows; `late` says that the loop must not go on with the futures left. */
    method Proceed(pending: set<Future>, deadline: int, answer: Wait) returns (next: set<Future>, late: bool)
      requires pending != {} && pending <= world.all
      requires BoundedIn(world, observed, quarantined, done) && TrackedIn(world, observed, quarantined, pending)
      modifies this`observed, this`done, this`clock
      ensures BoundedIn(world, observed, quarantined, done)
      ensures TrackedIn(world, observed, quarantined, next) && next <= world.all
      ensures old(observed) <= observed && old(done) <= done
      ensures forall g :: g in pending ==> g in observed || g in next
      ensures done <= old(done) + FinishedBy(answer) + (if answer.AllDone? then pending else {})
      ensures answer == AllDone(0) && deadline > old(clock) ==> !late && clock == old(clock)
      ensures !late ==> Advanced(world, pending, old(observed), next, observed) && Progress(old(Left(pending, deadline)), Left(next, deadline))
    {
      next := pending;
      late := deadline - clock <= 0;
      if late { return; }
      Await(pending, answer);
      late := answer.ParentCancelled?;
      if late { return; }
      Smaller(pending - done, pending);
      if pending - done == pending { assert !answer.AllDone?; } else { Strictly(pending - done, pending); }
      next := Collect(pending);
      late := next != {} && clock >= deadline;
    }

    /**
      One turn of the loop: give up before the wait if time is up, after it if the caller was cancelled
      again or time is up with futures left; else go on with what is left and what was found.
    */
    method Turn(pending: set<Future>, deadline: int, answer: Wait) returns (next: set<Future>, over: bool)
      requires pending != {} && pending <= world.all
      requires BoundedIn(world, observed, quarantined, done) && TrackedIn(world, observed, quarantined, pending)
      modifies this`observed, this`quarantined, this`fatal, this`done, this`clock
      ensures BoundedIn(world, observed, quarantined, done)
      ensures TrackedIn(world, observed, quarantined, next) && next <= world.all
      ensures old(observed) <= observed && old(done) <= done && old(quarantined) <= quarantined
      ensures forall g :: g in quarantined && g !in old(quarantined) ==> g !in done
      ensures forall g :: g in pending ==> g in observed || g in quarantined || g in next
      ensures over ==> fatal && next == {}
      ensures !over ==> fatal == old(fatal) && quarantined == old(quarantined)
      ensures !over ==> Advanced(world, pending, old(observed), next, observed) && Progress(old(Left(pending, deadline)), Left(next, deadline))
      ensures done <= old(done) + FinishedBy(answer) + (if answer.AllDone? then pending else {})
      ensures answer == AllDone(0) && deadline > old(clock) ==> !over && clock == old(clock)
    {
      next, over := Proceed(pending, deadline, answer);
      if over {
        var _ := GiveUp(next);
        next := {};
      }
    }

    /** A turn of `finish_producer`, in terms of everything observed and ended since the call began. */
    method Round(producer: Future, pending: set<Future>, deadline: int, wait: Waits, turn: nat,
                 ghost seen: set<Future>, ghost before: set<Future>) returns (next: set<Future>, over: bool)
      requires pending != {} && pending <= world.all && seen <= before <= done
      requires BoundedIn(world, observed, quarantined, done) && TrackedIn(world, observed, quarantined, pending)
      requires Explored(world, producer, seen, pending, observed) && EndedAs(world, producer, wait, seen, before, done)
      modifies this`observed, this`quarantined, this`fatal, this`done, this`clock
      ensures BoundedIn(world, observed, quarantined, done)
      ensures TrackedIn(world, observed, quarantined, next) && next <= world.all
      ensures old(observed) <= observed && old(done) <= done && old(quarantined) <= quarantined
      ensures forall g :: g in quarantined && g !in old(quarantined) ==> g !in done
      ensures EndedAs(world, producer, wait, seen, before, done)
      ensures over ==> fatal && next == {} && (producer in observed || producer in quarantined)
      ensures !over ==>
        fatal == old(fatal) && quarantined == old(quarantined) && Explored(world, producer, seen, next, observed)
      ensures !over ==> Progress(old(Left(pending, deadline)), Left(next, deadline))
      ensures wait.AllPrompt() && deadline > old(clock) ==> !over && clock == old(clock)
    {
      wait.AtFacts(turn);
      ghost var shown, ended := observed, done;
      next, over := Turn(pending, deadline, wait.At(turn));
      EndedStep(world, producer, wait, seen, pending, shown, before, ended, wait.At(turn), done);
      if !over { ExploredStep(world, producer, seen, pending, shown, next, observed); }
    }

    /**
      Cancel once, then observe the producer and the cleanup it reveals without cancelling again.
      The waits are arbitrary; the loop ends because each turn observes a new future, shortens the
      pending set, or uses up time. A normal return has observed all that can be found from the producer
      exactly if nothing in quarantine was hidden behind a future observed earlier, as in a healthy runtime.
    */
    method FinishProducer(producer: Future, cancel: bool, wait: Waits) returns (r: Finish)
      requires Valid() && producer in world.all
      modifies this
      ensures Valid() && old(observed) <= observed && old(done) <= done && old(quarantined) <= quarantined
      ensures r.Normal? ==> fatal == old(fatal) && quarantined == old(quarantined) && producer in observed
      ensures r.CleanupTimeout? ==> fatal && (producer in observed || producer in quarantined)
      ensures forall g :: g in quarantined && g !in old(quarantined) ==> g !in done
      ensures var ask := cancel && producer !in old(done) && producer !in old(cancelling);
        cancelled == old(cancelled) + (if ask then [producer] else [])
      ensures r.Normal? ==>
        (AllFoundObserved(world, producer, observed) <==> ReachedAfresh(world, producer, old(quarantined), old(observed)))
      ensures r.Normal? && !old(fatal) ==> AllFoundObserved(world, producer, observed)
      ensures EndedAs(world, producer, wait, old(observed), old(done), done)
      ensures grace > 0 && wait.AllPrompt() ==> r.Normal?
    {
      if cancel { RequestCancel(producer); }
      r := Settle(producer, clock + grace, wait);
    }

    /** The loop of `finish_producer`, after the cancellation. */
    method Settle(producer: Future, deadline: int, wait: Waits) returns (r: Finish)
      requires Valid() && producer in world.all
      modifies this`observed, this`quarantined, this`fatal, this`done, this`clock
      ensures Valid() && old(observed) <= observed && old(done) <= done && old(quarantined) <= quarantined
      ensures r.Normal? ==> fatal == old(fatal) && quarantined == old(quarantined) && producer in observed
      ensures r.CleanupTimeout? ==> fatal && (producer in observed || producer in quarantined)
      ensures forall g :: g in quarantined && g !in old(quarantined) ==> g !in done
      ensures r.Normal? ==>
        (AllFoundObserved(world, producer, observed) <==> ReachedAfresh(world, producer, old(quarantined), old(observed)))
      ensures r.Normal? && !old(fatal) ==> AllFoundObserved(world, producer, observed)
      ensures EndedAs(world, producer, wait, old(observed), old(done), done)
      ensures deadline > old(clock) && wait.AllPrompt() ==> r.Normal?
    {
      var pending, turn, over := {producer}, 0, false;
      StartsFresh(world, producer, observed);
      while pending != {}
        invariant BoundedIn(world, observed, quarantined, done) && TrackedIn(world, observed, quarantined, pending)
        invariant pending <= world.all && old(observed) <= old(done) <= done && (over ==> pending == {})
        invariant if over then fatal && (producer in observed || producer in quarantined)
          else fatal == old(fatal) && quarantined == old(quarantined) && Explored(world, producer, old(observed), pending, observed)
        invariant old(observed) <= observed && old(quarantined) <= quarantined
        invariant forall g :: g in quarantined && g !in old(quarantined) ==> g !in done
        invariant EndedAs(world, producer, wait, old(observed), old(done), done)
        invariant deadline > old(clock) && wait.AllPrompt() ==> !over && clock == old(clock)
        decreases pending != {}, Left(pending, deadline).0, Left(pending, deadline).1, Left(pending, deadline).2
      {
        pending, over := Round(producer, pending, deadline, wait, turn, old(observed), old(done));
        turn := turn + 1;
      }
      r := if over then CleanupTimeout else Normal;
      if !over { CompleteIff(world, producer, old(observed), quarantined, observed); }
    }

    /** The callback of a quarantined future that ends at last. */
    method ObserveQuarantined(f: Future)
      requires Valid() && f in quarantined
      modifies this`done, this`quarantined, this`observed
      ensures Valid() && fatal && f in observed && cancelled == old(cancelled)
      ensures done == old(done) + {f} && old(observed) <= observed
    {
      done := done + {f};
      quarantined := quarantined - {f};
      assert {} + {f} == {f};
      var nested := Observe(f, {});
      if nested != {} { Quarantine(nested, {}); }
    }
  }

  // ----- what a normal return means -----

  ghost predicate Link(w: World, path: seq<Future>, i: nat)
    requires i + 1 < |path|
  {
    path[i + 1] in (w.nested)(path[i])
  }

  /** A chain of futures, each found through the cancellation of the one before. */
  ghost predicate Chain(w: World, path: seq<Future>) {
    path != [] && forall i :: 0 <= i < |path| - 1 ==> Link(w, path, i)
  }

  lemma ChainPrefix(w: World, path: seq<Future>, n: nat)
    requires Chain(w, path) && 0 < n <= |path|
    ensures Chain(w, path[..n])
  {
    forall i | 0 <= i < n - 1 ensures Link(w, path[..n], i) { assert Link(w, path, i); }
  }

  lemma ChainAppend(w: World, path: seq<Future>, g: Future)
    requires Chain(w, path) && g in (w.nested)(path[|path| - 1])
    ensures Chain(w, path + [g])
  {
    forall i | 0 <= i < |path| ensures Link(w, path + [g], i) {
      if i < |path| - 1 { assert Link(w, path, i); }
    }
  }

  ghost predicate FoundFrom(w: World, producer: Future, f: Future) {
    exists path :: Chain(w, path) && path[0] == producer && path[|path| - 1] == f
  }

  /** The producer and every cleanup future transitively found from it have been observed. */
  ghost predicate AllFoundObserved(w: World, producer: Future, observed: set<Future>) {
    forall f :: FoundFrom(w, producer, f) ==> f in observed
  }

  lemma {:induction false} ChainObserved(w: World, path: seq<Future>, observed: set<Future>, quarantined: set<Future>)
    requires TrackedIn(w, observed, quarantined, {}) && Chain(w, path) && path[0] in observed
    requires forall i :: 0 <= i < |path| ==> path[i] in quarantined ==> path[i] in observed
    ensures path[|path| - 1] in observed
  {
    if |path| > 1 {
      var front := path[..|path| - 1];
      ChainPrefix(w, path, |path| - 1);
      ChainObserved(w, front, observed, quarantined);
      assert Link(w, path, |path| - 2);
    }
  }

  /** With the producer observed, everything found from it is observed if none of it still waits in quarantine. */
  lemma CompleteUnlessQuarantined(w: World, producer: Future, observed: set<Future>, quarantined: set<Future>)
    requires TrackedIn(w, observed, quarantined, {}) && producer in observed
    requires forall f :: FoundFrom(w, producer, f) && f in quarantined ==> f in observed
    ensures AllFoundObserved(w, producer, observed)
  {
    forall f | FoundFrom(w, producer, f) ensures f in observed {
      var path :| Chain(w, path) && path[0] == producer && path[|path| - 1] == f;
      forall i | 0 <= i < |path| && path[i] in quarantined ensures path[i] in observed {
        ChainPrefix(w, path, i + 1);
        assert path[..i + 1][|path[..i + 1]| - 1] == path[i];
        assert FoundFrom(w, producer, path[i]);
      }
      ChainObserved(w, path, observed, quarantined);
    }
  }

  /** A chain whose every link starts at a future that had not been observed before. */
  ghost predicate FreshChain(w: World, path: seq<Future>, seen: set<Future>) {
    Chain(w, path) && forall i :: 0 <= i < |path| - 1 ==> path[i] !in seen
  }

  ghost predicate FreshFrom(w: World, producer: Future, f: Future, seen: set<Future>) {
    exists path :: FreshChain(w, path, seen) && path[0] == producer && path[|path| - 1] == f
  }

  /**
    Known before the call: every future found from the producer that waits in quarantine can be found
    without passing through a future observed earlier.
  */
  ghost predicate ReachedAfresh(w: World, producer: Future, quarantined: set<Future>, seen: set<Future>) {
    forall f :: FoundFrom(w, producer, f) && f in quarantined && f !in seen ==> FreshFrom(w, producer, f, seen)
  }

  /**
    What the loop has explored: everything new comes over fresh chains, and leads only to observed or pending
    futures.
  */
  ghost predicate Explored(w: World, producer: Future, seen: set<Future>, pending: set<Future>, observed: set<Future>) {
    && seen <= observed && (producer in observed || producer in pending)
    && (forall g :: g in pending ==> FreshFrom(w, producer, g, seen))
    && (forall g :: g in observed && g !in seen ==> FreshFrom(w, producer, g, seen))
    && (forall f, g :: f in observed && f !in seen && g in (w.nested)(f) ==> g in observed || g in pending)
  }

  lemma StartsFresh(w: World, producer: Future, seen: set<Future>)
    ensures Explored(w, producer, seen, {producer}, seen)
  {
    var path := [producer];
    assert FreshChain(w, path, seen) && path[0] == producer && path[|path| - 1] == producer;
  }

  lemma ChainExtends(w: World, producer: Future, f: Future, g: Future, seen: set<Future>)
    requires FreshFrom(w, producer, f, seen) && f !in seen && g in (w.nested)(f)
    ensures FreshFrom(w, producer, g, seen)
  {
    var path :| FreshChain(w, path, seen) && path[0] == producer && path[|path| - 1] == f;
    var longer := path + [g];
    ChainAppend(w, path, g);
    assert FreshChain(w, longer, seen) && longer[0] == producer && longer[|longer| - 1] == g;
  }

  lemma ExploredStep(w: World, producer: Future, seen: set<Future>, pending: set<Future>, before: set<Future>,
                     next: set<Future>, after: set<Future>)
    requires Explored(w, producer, seen, pending, before) && Advanced(w, pending, before, next, after)
    ensures Explored(w, producer, seen, next, after)
  {
    forall g | g in next ensures FreshFrom(w, producer, g, seen) {
      if g !in pending {
        assert JustFound(w, before, after, g);
        var f :| f in after && f !in before && g in (w.nested)(f);
        ChainExtends(w, producer, f, g, seen);
      }
    }
  }

  lemma JustFoundGrows(w: World, before: set<Future>, mid: set<Future>, after: set<Future>, g: Future)
    requires JustFound(w, before, mid, g) && mid <= after
    ensures JustFound(w, before, after, g)
  {
    var f :| f in mid && f !in before && g in (w.nested)(f);
    assert f in after;
  }

  lemma {:induction false} FreshChainObserved(w: World, path: seq<Future>, seen: set<Future>, observed: set<Future>)
    requires FreshChain(w, path, seen) && path[0] in observed
    requires forall f, g :: f in observed && f !in seen && g in (w.nested)(f) ==> g in observed
    ensures path[|path| - 1] in observed
  {
    if |path| > 1 {
      var front := path[..|path| - 1];
      ChainPrefix(w, path, |path| - 1);
      FreshChainObserved(w, front, seen, observed);
      assert Link(w, path, |path| - 2);
    }
  }

  /**
    At a normal return all that can be found from the producer is observed exactly if the condition held
    before the call.
  */
  lemma CompleteIff(w: World, producer: Future, seen: set<Future>, quarantined: set<Future>, observed: set<Future>)
    requires Explored(w, producer, seen, {}, observed) && TrackedIn(w, observed, quarantined, {})
    ensures AllFoundObserved(w, producer, observed) <==> ReachedAfresh(w, producer, quarantined, seen)
  {
    if ReachedAfresh(w, producer, quarantined, seen) {
      forall f | FoundFrom(w, producer, f) && f in quarantined ensures f in observed {
        if f !in seen {
          var path :| FreshChain(w, path, seen) && path[0] == producer && path[|path| - 1] == f;
          FreshChainObserved(w, path, seen, observed);
        }
      }
      CompleteUnlessQuarantined(w, producer, observed, quarantined);
    }
  }

  /** A future that a wait reported, or that was pending, hence found afresh, when everything pending ended. */
  ghost predicate EndedBy(w: World, producer: Future, wait: Waits, seen: set<Future>, g: Future) {
    g in wait.Reported() || (wait.SomeAllDone() && FreshFrom(w, producer, g, seen))
  }

  ghost predicate EndedAs(w: World, producer: Future, wait: Waits, seen: set<Future>, before: set<Future>,
                          after: set<Future>) {
    forall g {:trigger g in after} :: g in after && g !in before ==> EndedBy(w, producer, wait, seen, g)
  }

  lemma EndedStep(w: World, producer: Future, wait: Waits, seen: set<Future>, pending: set<Future>,
                  observed: set<Future>,
                  start: set<Future>, before: set<Future>, answer: Wait, after: set<Future>)
    requires Explored(w, producer, seen, pending, observed) && EndedAs(w, producer, wait, seen, start, before)
    requires FinishedBy(answer) <= wait.Reported() && (answer.AllDone? ==> wait.SomeAllDone())
    requires after <= before + FinishedBy(answer) + (if answer.AllDone? then pending else {})
    ensures EndedAs(w, producer, wait, seen, start, after)
  {
    forall g | g in after && g !in start ensures EndedBy(w, producer, wait, seen, g) {
      if g in before { assert EndedBy(w, producer, wait, seen, g); }
    }
  }

  // ----- cleanup that stays hidden -----

  /** Three futures: each of the first two names the next one as its unfinished cleanup. */
  const THREE := World({0, 1, 2}, (f: Future) => if f == 0 then {1} else if f == 1 then {2} else {})

  lemma TwoIsFound()
    ensures Closed(THREE) && FoundFrom(THREE, 0, 2) && !FreshFrom(THREE, 0, 2, {1})
  {
    var path := [0, 1, 2];
    assert Link(THREE, path, 0) && Link(THREE, path, 1) && Chain(THREE, path);
    assert path[0] == 0 && path[|path| - 1] == 2;
    forall p | FreshChain(THREE, p, {1}) && p[0] == 0 ensures p[|p| - 1] != 2 {
      if |p| > 1 {
        assert Link(THREE, p, 0);
        assert p[1] == 1;
      }
    }
  }

  /**
    It happens: one producer times out while its cleanup 2 still runs, so 2 is quarantined and the
    producer itself observed; a later producer that names the first one then finishes normally
    although 2, which it leads to, has never ended.
  */
  method HiddenCleanup() returns (r: Finish, l: RuntimeLifecycle)
    ensures r.Normal? && l.world == THREE && l.Valid() && 2 !in l.done && 2 in l.quarantined
    ensures !AllFoundObserved(THREE, 0, l.observed)
  {
    TwoIsFound();
    l := new RuntimeLifecycle(THREE, 1);
    var _ := l.FinishProducer(1, true, Waits([], TimedOut({1}, 0)));
    assert l.done <= {1};
    if 1 in l.quarantined { l.ObserveQuarantined(1); }
    assert 1 in l.observed && l.observed == {1};
    assert 2 in (THREE.nested)(1);
    r := l.FinishProducer(0, true, Waits([], AllDone(0)));
    assert !EndedBy(THREE, 0, Waits([], AllDone(0)), {1}, 2);
  }

  lemma Shrinks(all: set<Future>, before: set<Future>, now: set<Future>, f: Future)
    requires before <= now && f in all && f in now && f !in before
    ensures |all - now| < |all - before|
  {
    assert all - now <= (all - before) - {f};
    Smaller(all - now, (all - before) - {f});
  }

  lemma Strictly(a: set<Future>, b: set<Future>)
    requires a < b
    ensures |a| < |b|
  {
    var f :| f in b && f !in a;
    Smaller(a, b - {f});
  }

  lemma Smaller(a: set<Future>, b: set<Future>)
    requires a <= b
    ensures |a| <= |b|
  {
    assert b == a + (b - a);
  }
}
