/**
  The run service (service.py): worker registration, level-triggered cancellation, and the
  permanent fail-stop after a repository cleanup failure.
*/
module RunService {
  import opened Common
  import opened RunRecords

  datatype Task = Task(done: bool, cancels: nat)

  /**
    `registered` are the runs whose worker is still held; `tasks` every worker ever launched.
    `started` lists the transactions begun and `committed` the runs this service created. Of those,
    `returning` are the ones whose repository call has not returned yet, `unowned` the ones refused a
    worker when it did, and `lost` the ones whose call was cancelled between commit and return.
  */
  datatype Service = Service(
    fatal: Option<string>, closed: bool, registered: set<RunId>, tasks: map<RunId, Task>,
    started: seq<nat>, committed: set<RunId>, returning: set<RunId>, unowned: set<RunId>, lost: set<RunId>)

  const NEW_SERVICE := Service(None, false, {}, map[], [], {}, {}, {}, {})

  datatype ServiceError = Closed | Fatal(reason: string)

  function RepositorySafe(s: Service): Option<ServiceError> {
    if s.fatal.Some? then Some(Fatal(s.fatal.value)) else None
  }

  function Healthy(s: Service): Option<ServiceError> { if s.closed then Some(Closed) else RepositorySafe(s) }

  /** One outstanding request is enough; a second could interrupt transaction cleanup. */
  function CancelTask(t: Task): Task { if !t.done && t.cancels == 0 then t.(cancels := t.cancels + 1) else t }

  function CancelAll(s: Service, current: Option<RunId>): Service {
    s.(tasks := map r | r in s.tasks :: if r in s.registered && Some(r) != current then CancelTask(s.tasks[r]) else s.tasks[r])
  }

  /** The first reason stays; every other worker is asked to stop. `current` is the worker that found the failure. */
  function MarkFatal(s: Service, reason: string, current: Option<RunId>): Service {
    CancelAll(if s.fatal.None? then s.(fatal := Some(reason)) else s, current)
  }

  function Launch(s: Service, r: RunId): Result<Service, ServiceError> {
    var e := Healthy(s);
    if e.Some? then Err(e.value) else Ok(s.(registered := s.registered + {r}, tasks := s.tasks[r := Task(false, 0)]))
  }

  /** A created run whose call has returned gets its worker, or is refused one. */
  function Returned(s: Service, r: RunId): Service {
    var back := s.(returning := s.returning - {r});
    match Launch(back, r)
    case Ok(next) => next
    case Err(_) => back.(unowned := back.unowned + {r})
  }

  datatype ServiceStep =
    | StartTransaction(id: nat)                       // the child's last check, then the repository
    | CreateCommits(run: RunId)                       // the commit inside the repository call
    | CreateReturns(run: RunId)                       // the call returns; no await before the launch
    | CreateCancelled(run: RunId)                     // the deadline hits between commit and return
    | CancelRun(run: RunId)
    | CleanupTimesOut(current: Option<RunId>)         // a transaction outlived its grace
    | TerminalWriteFails(current: Option<RunId>)
    | RuntimeTimesOut(current: Option<RunId>)
    | WorkerEnds(run: RunId)
    | Shutdown

  function ServiceNext(s: Service, step: ServiceStep): Service {
    match step
    case StartTransaction(id) => if RepositorySafe(s).None? then s.(started := s.started + [id]) else s
    case CreateCommits(r) =>
      if r in s.committed then s else s.(committed := s.committed + {r}, returning := s.returning + {r})
    case CreateReturns(r) => if r in s.returning then Returned(s, r) else s
    case CreateCancelled(r) =>
      if r in s.returning then s.(returning := s.returning - {r}, lost := s.lost + {r}) else s
    case CancelRun(r) =>
      if RepositorySafe(s).Some? || r !in s.registered || r !in s.tasks then s else s.(tasks := s.tasks[r := CancelTask(s.tasks[r])])
    case CleanupTimesOut(current) => MarkFatal(s, "repository_cleanup_timeout", current)
    case TerminalWriteFails(current) => MarkFatal(s, "repository_finalization_failed", current)
    case RuntimeTimesOut(current) => MarkFatal(s, "runtime_cleanup_timeout", current)
    case WorkerEnds(r) =>
      if r in s.registered && r in s.tasks then s.(registered := s.registered - {r}, tasks := s.tasks[r := s.tasks[r].(done := true)]) else s
    case Shutdown => CancelAll(s.(closed := true), None)
  }

  function ServiceTrace(s: Service, steps: seq<ServiceStep>): Service {
    if steps == [] then s else ServiceNext(ServiceTrace(s, steps[..|steps| - 1]), steps[|steps| - 1])
  }

  ghost predicate ServiceInv(s: Service) {
    && s.registered <= s.tasks.Keys
    && (forall r :: r in s.tasks ==> s.tasks[r].cancels <= 1 && (s.tasks[r].done <==> r !in s.registered))
    && s.committed == s.tasks.Keys + s.returning + s.unowned + s.lost
    && s.tasks.Keys !! s.returning && s.tasks.Keys !! s.unowned && s.tasks.Keys !! s.lost
    && s.returning !! s.unowned && s.returning !! s.lost
    && (s.unowned != {} ==> s.closed || s.fatal.Some?)
  }

  lemma CancelAllKeeps(s: Service, current: Option<RunId>)
    requires ServiceInv(s)
    ensures ServiceInv(CancelAll(s, current))
  {
    assert CancelAll(s, current).tasks.Keys == s.tasks.Keys;
  }

  lemma FatalKeeps(s: Service, reason: string, current: Option<RunId>)
    requires ServiceInv(s)
    ensures ServiceInv(MarkFatal(s, reason, current))
  {
    CancelAllKeeps(if s.fatal.None? then s.(fatal := Some(reason)) else s, current);
  }

  lemma AdmissionKeeps(s: Service, step: ServiceStep)
    requires ServiceInv(s) && (step.CreateCommits? || step.CreateReturns? || step.CreateCancelled?)
    ensures ServiceInv(ServiceNext(s, step))
  {}

  lemma WorkerStepKeeps(s: Service, step: ServiceStep)
    requires ServiceInv(s) && (step.StartTransaction? || step.CancelRun? || step.WorkerEnds?)
    ensures ServiceInv(ServiceNext(s, step))
  {
    assert ServiceNext(s, step).tasks.Keys == s.tasks.Keys;
  }

  lemma ServiceStepKeeps(s: Service, step: ServiceStep)
    requires ServiceInv(s)
    ensures ServiceInv(ServiceNext(s, step))
  {
    match step
    case CreateCommits(_) => AdmissionKeeps(s, step);
    case CreateReturns(_) => AdmissionKeeps(s, step);
    case CreateCancelled(_) => AdmissionKeeps(s, step);
    case CleanupTimesOut(current) => FatalKeeps(s, "repository_cleanup_timeout", current);
    case TerminalWriteFails(current) => FatalKeeps(s, "repository_finalization_failed", current);
    case RuntimeTimesOut(current) => FatalKeeps(s, "runtime_cleanup_timeout", current);
    case Shutdown => CancelAllKeeps(s.(closed := true), None);
    case _ => WorkerStepKeeps(s, step);
  }

  lemma {:induction false} ServiceTraceInv(steps: seq<ServiceStep>)
    ensures ServiceInv(ServiceTrace(NEW_SERVICE, steps))
  {
    if steps != [] {
      ServiceTraceInv(steps[..|steps| - 1]);
      ServiceStepKeeps(ServiceTrace(NEW_SERVICE, steps[..|steps| - 1]), steps[|steps| - 1]);
    }
  }

  // ----- main results -----

  /**
    In a service neither closed nor failed, a run whose creation committed, and whose call is over, has a
    worker, registered until it ends, exactly if the call was not cancelled between commit and return; and
    no worker is ever asked to stop twice.
  */
  lemma CommittedRunsHaveWorkers(steps: seq<ServiceStep>, r: RunId)
    ensures var s := ServiceTrace(NEW_SERVICE, steps);
      && (r in s.committed && !s.closed && s.fatal.None? && r !in s.returning ==> (r in s.tasks <==> r !in s.lost))
      && (r in s.tasks ==> s.tasks[r].cancels <= 1 && (s.tasks[r].done <==> r !in s.registered))
  {
    ServiceTraceInv(steps);
  }

  /** Only a deadline between commit and return loses a run: none if every such call returns. */
  lemma {:induction false} NothingLost(steps: seq<ServiceStep>)
    requires forall i :: 0 <= i < |steps| ==> !steps[i].CreateCancelled?
    ensures ServiceTrace(NEW_SERVICE, steps).lost == {}
  {
    if steps != [] {
      NothingLost(steps[..|steps| - 1]);
      LostOnlyByCancel(ServiceTrace(NEW_SERVICE, steps[..|steps| - 1]), steps[|steps| - 1]);
    }
  }

  /** It happens: the deadline hits between commit and return, and no worker ever comes. */
  lemma LostRunExample(r: RunId, after: seq<ServiceStep>)
    ensures var s := ServiceTrace(NEW_SERVICE, [CreateCommits(r), CreateCancelled(r)]);
      && r in s.committed && Healthy(s).None? && r !in s.returning
      && r !in ServiceTrace(s, after).tasks
  {
    var a, b := CreateCommits(r), CreateCancelled(r);
    assert [a, b][..1] == [a] && [a][..0] == [];
    assert ServiceTrace(NEW_SERVICE, [a]) == ServiceNext(NEW_SERVICE, a);
    ServiceTraceInv([a, b]);
    NeverLaunched(ServiceTrace(NEW_SERVICE, [a, b]), after, r);
  }

  lemma LostOnlyByCancel(s: Service, step: ServiceStep)
    requires !step.CreateCancelled?
    ensures ServiceNext(s, step).lost == s.lost
  {}

  lemma {:induction false} WorkersAreKept(s: Service, steps: seq<ServiceStep>, r: RunId)
    requires r in s.tasks
    ensures r in ServiceTrace(s, steps).tasks
  {
    if steps != [] {
      WorkersAreKept(s, steps[..|steps| - 1], r);
      StepKeepsWorkers(ServiceTrace(s, steps[..|steps| - 1]), steps[|steps| - 1], r);
    }
  }

  lemma StepKeepsWorkers(s: Service, step: ServiceStep, r: RunId)
    requires r in s.tasks
    ensures r in ServiceNext(s, step).tasks
  {}

  /** The steps others take while a call is returning. */
  predicate Elsewhere(step: ServiceStep, r: RunId) { step != CreateReturns(r) && step != CreateCancelled(r) }

  lemma {:induction false} StaysReturning(s: Service, gap: seq<ServiceStep>, r: RunId)
    requires ServiceInv(s) && r in s.returning && forall i :: 0 <= i < |gap| ==> Elsewhere(gap[i], r)
    ensures var t := ServiceTrace(s, gap); ServiceInv(t) && r in t.returning
  {
    if gap != [] {
      var before := ServiceTrace(s, gap[..|gap| - 1]);
      StaysReturning(s, gap[..|gap| - 1], r);
      assert Elsewhere(gap[|gap| - 1], r);
      ServiceStepKeeps(before, gap[|gap| - 1]);
    }
  }

  /**
    Across the gap between commit and launch, whatever happens in it: the run has its worker from the
    return on, for ever, exactly if the service was neither closed nor failed when the call returned.
  */
  lemma LaunchedIfHealthyAtReturn(before: seq<ServiceStep>, r: RunId, gap: seq<ServiceStep>, after: seq<ServiceStep>)
    requires r !in ServiceTrace(NEW_SERVICE, before).committed
    requires forall i :: 0 <= i < |gap| ==> Elsewhere(gap[i], r)
    ensures var committed := ServiceNext(ServiceTrace(NEW_SERVICE, before), CreateCommits(r));
      var t := ServiceTrace(committed, gap);
      var launched := ServiceNext(t, CreateReturns(r));
      && r in t.returning && r !in t.tasks
      && (Healthy(t).None? ==> r in launched.registered && r in ServiceTrace(launched, after).tasks)
      && (Healthy(t).Some? ==> r in launched.unowned && r !in ServiceTrace(launched, after).tasks)
  {
    var s := ServiceTrace(NEW_SERVICE, before);
    var committed := ServiceNext(s, CreateCommits(r));
    ServiceTraceInv(before);
    ServiceStepKeeps(s, CreateCommits(r));
    StaysReturning(committed, gap, r);
    var t := ServiceTrace(committed, gap);
    var launched := ServiceNext(t, CreateReturns(r));
    ServiceStepKeeps(t, CreateReturns(r));
    if Healthy(t).None? { WorkersAreKept(launched, after, r); } else { NeverLaunched(launched, after, r); }
  }

  /** A run refused a worker, or whose call was cancelled, never gets one. */
  lemma {:induction false} NeverLaunched(s: Service, steps: seq<ServiceStep>, r: RunId)
    requires ServiceInv(s) && WithoutWorker(s, r)
    ensures ServiceInv(ServiceTrace(s, steps)) && WithoutWorker(ServiceTrace(s, steps), r)
    ensures r !in ServiceTrace(s, steps).tasks
  {
    if steps != [] {
      NeverLaunched(s, steps[..|steps| - 1], r);
      StaysWithoutWorker(ServiceTrace(s, steps[..|steps| - 1]), steps[|steps| - 1], r);
    }
  }

  predicate WithoutWorker(s: Service, r: RunId) { r in s.unowned || r in s.lost }

  lemma StaysWithoutWorker(s: Service, step: ServiceStep, r: RunId)
    requires ServiceInv(s) && WithoutWorker(s, r)
    ensures ServiceInv(ServiceNext(s, step)) && WithoutWorker(ServiceNext(s, step), r)
  {
    ServiceStepKeeps(s, step);
  }

  /** Once fatal: the reason stays, no transaction starts and no worker is launched, ever. */
  lemma {:induction false} FatalStopsEverything(s: Service, steps: seq<ServiceStep>)
    requires s.fatal.Some?
    ensures var later := ServiceTrace(s, steps);
      later.fatal == s.fatal && later.started == s.started && later.tasks.Keys == s.tasks.Keys
  {
    if steps != [] {
      FatalStopsEverything(s, steps[..|steps| - 1]);
      FatalStep(ServiceTrace(s, steps[..|steps| - 1]), steps[|steps| - 1]);
    }
  }

  lemma FatalStep(s: Service, step: ServiceStep)
    requires s.fatal.Some?
    ensures var next := ServiceNext(s, step);
      next.fatal == s.fatal && next.started == s.started && next.tasks.Keys == s.tasks.Keys
  {
    assert forall current :: CancelAll(s, current).tasks.Keys == s.tasks.Keys;
  }

  /** After a failure every worker but the one that found it has been asked to stop, exactly once, or has ended. */
  lemma FailureReachesEveryWorker(steps: seq<ServiceStep>, reason: string, current: Option<RunId>, r: RunId)
    requires var s := ServiceTrace(NEW_SERVICE, steps); r in s.tasks && Some(r) != current
    ensures var t := MarkFatal(ServiceTrace(NEW_SERVICE, steps), reason, current).tasks[r]; t.done || t.cancels == 1
  {
    ServiceTraceInv(steps);
  }

  // ----- the service object -----

  class RunService {
    var fatal: Option<string>
    var closed: bool
    var registered: set<RunId>
    var tasks: map<RunId, Task>
    var started: seq<nat>
    var committed: set<RunId>
    var returning: set<RunId>
    var unowned: set<RunId>
    var lost: set<RunId>

    function State(): Service
      reads this
    {
      Service(fatal, closed, registered, tasks, started, committed, returning, unowned, lost)
    }

    constructor ()
      ensures State() == NEW_SERVICE
    {
      fatal, closed, registered, tasks := None, false, {}, map[];
      started, committed, returning, unowned, lost := [], {}, {}, {}, {};
    }

    method RequireRepositorySafe() returns (error: Option<ServiceError>)
      ensures error == RepositorySafe(State())
    {
      if fatal.Some? { return Some(Fatal(fatal.value)); }
      error := None;
    }

    method RequireHealthy() returns (error: Option<ServiceError>)
      ensures error == Healthy(State())
    {
      if closed { return Some(Closed); }
      error := RequireRepositorySafe();
    }

    method RequestCancel(r: RunId)
      requires r in tasks
      modifies this`tasks
      ensures State() == old(State()).(tasks := old(tasks)[r := CancelTask(old(tasks)[r])])
    {
      var t := tasks[r];
      if !t.done && t.cancels == 0 { t := t.(cancels := t.cancels + 1); }
      tasks := tasks[r := t];
    }

    method RequestCancelAll(current: Option<RunId>)
      requires registered <= tasks.Keys
      modifies this`tasks
      ensures State() == CancelAll(old(State()), current)
    {
      var todo := registered;
      ghost var before := State();
      while todo != {}
        invariant todo <= registered == before.registered && registered <= tasks.Keys == before.tasks.Keys
        invariant State() == before.(tasks := tasks)
        invariant forall r :: r in tasks && r in registered && r !in todo && Some(r) != current ==> tasks[r] == CancelTask(before.tasks[r])
        invariant forall r :: r in tasks && (r !in registered || r in todo || Some(r) == current) ==> tasks[r] == before.tasks[r]
      {
        var r :| r in todo;
        todo := todo - {r};
        if Some(r) != current { RequestCancel(r); }
      }
    }

    method MarkServiceFatal(reason: string, current: Option<RunId>)
      requires registered <= tasks.Keys
      modifies this`fatal, this`tasks
      ensures State() == MarkFatal(old(State()), reason, current)
    {
      if fatal.None? { fatal := Some(reason); }
      RequestCancelAll(current);
    }

    /** The guarded child of a repository call: nothing may come between this check and the transaction. */
    method GuardedTransaction(id: nat) returns (error: Option<ServiceError>)
      modifies this`started
      ensures State() == ServiceNext(old(State()), StartTransaction(id)) && error == RepositorySafe(old(State()))
    {
      error := RequireRepositorySafe();
      if error.None? { started := started + [id]; }
    }

    method LaunchWorker(r: RunId) returns (error: Option<ServiceError>)
      modifies this`registered, this`tasks
      ensures match Launch(old(State()), r)
              case Ok(next) => error.None? && State() == next
              case Err(e) => error == Some(e) && State() == old(State())
    {
      error := RequireHealthy();
      if error.Some? { return; }
      tasks := tasks[r := Task(false, 0)];
      registered := registered + {r};
    }

    /** The repository call of an admission commits a new run, but has not returned yet. */
    method CreateCommitted(r: RunId)
      requires r !in committed
      modifies this`committed, this`returning
      ensures State() == ServiceNext(old(State()), CreateCommits(r))
    {
      committed := committed + {r};
      returning := returning + {r};
    }

    /** The end of an admission: no await separates the return of the repository call from the launch. */
    method AdmitAndLaunch(r: RunId, created: bool) returns (error: Option<ServiceError>)
      requires created ==> r in returning
      modifies this`registered, this`tasks, this`returning, this`unowned
      ensures !created ==> State() == old(State()) && error.None?
      ensures created ==> State() == ServiceNext(old(State()), CreateReturns(r)) && error == Healthy(old(State()))
    {
      error := None;
      if created {
        returning := returning - {r};
        error := LaunchWorker(r);
        if error.Some? { unowned := unowned + {r}; }
      }
    }

    method DiscardWorker(r: RunId)
      requires r in registered && r in tasks
      modifies this`registered, this`tasks
      ensures State() == ServiceNext(old(State()), WorkerEnds(r))
    {
      tasks := tasks[r := tasks[r].(done := true)];
      registered := registered - {r};
    }

    method ShutDown()
      requires registered <= tasks.Keys
      modifies this`closed, this`tasks
      ensures State() == ServiceNext(old(State()), Shutdown)
    {
      closed := true;
      RequestCancelAll(None);
    }
  }
}
