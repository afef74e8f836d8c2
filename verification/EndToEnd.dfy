/** From the runner to the screen: what a browser shows of a run that any interleaving of the service produced. */
module EndToEnd {
  import RunPolicy
  import opened Common
  import opened RunRecords
  import opened PolicyLedger
  import opened Budgets
  import RunSystem
  import opened EventView
  import opened Projection
  import opened ClientView

  /** While a log holds neither an answer nor a failure, the text shown is its deltas. */
  lemma {:induction false} TextIsDeltas(events: seq<EventRow>)
    requires forall i :: 0 <= i < |events| ==> !events[i].payload.MessageCompleted? && !events[i].payload.RunFailed?
    ensures Fold(events).text == DeltaText(events)
  {
    if events != [] {
      var front := events[..|events| - 1];
      assert forall i :: 0 <= i < |front| ==> front[i] == events[i];
      TextIsDeltas(front);
      assert Fold(events) == StepView(Fold(front), events[|events| - 1]);
    }
  }

  function Ids(sources: seq<Projection.Source>): seq<string> {
    seq(|sources|, i requires 0 <= i < |sources| => sources[i].id)
  }

  /** The sources shown are the log's sources, in order. */
  lemma {:induction false} ShownSources(events: seq<EventRow>)
    requires Contracted(events) && Distinct(SourceIds(events))
    ensures Ids(Fold(events).sources) == SourceIds(events)
  {
    if events != [] {
      var front, last := events[..|events| - 1], events[|events| - 1];
      assert events == front + [last] && last.payload == events[|events| - 1].payload;
      SourceIdsAppend(front, last);
      assert forall i :: 0 <= i < |front| ==> front[i] == events[i];
      DistinctFront(SourceIds(front), SourceIds(events));
      ShownSources(front);
      assert Fold(events) == StepView(Fold(front), last);
      if last.payload.SourceAdded? { NewSourceShown(Fold(front).sources, SourceIds(front), last.payload); }
    }
  }

  lemma DistinctFront(a: seq<string>, b: seq<string>)
    requires Distinct(b) && a <= b
    ensures Distinct(a)
  {
    forall i, j | 0 <= i < j < |a| ensures a[i] != a[j] { assert a[i] == b[i] && a[j] == b[j]; }
  }

  lemma NewSourceShown(sources: seq<Projection.Source>, ids: seq<string>, p: Payload)
    requires Ids(sources) == ids && p.SourceAdded? && ValidRuntimePayload(p) && Distinct(ids + [p.sourceId])
    ensures Ids(ViewSources(sources, p)) == ids + [p.sourceId]
  {
    var all := ids + [p.sourceId];
    forall i | 0 <= i < |sources| ensures sources[i].id != p.sourceId {
      assert all[i] == ids[i] == sources[i].id && all[|ids|] == p.sourceId && all[i] != all[|ids|];
    }
    assert FindSource(sources, p.sourceId).None?;
  }

  /** The stored run that a trace of the service ends with. */
  function StoredRun(limits: PolicyLimits, reg: Registry, thread: ThreadId, key: string, plan: string, now: int,
                     steps: seq<RunSystem.SysStep>): RunSystem.System {
    RunSystem.Trace(limits, reg, RunSystem.Initial(thread, key, plan, now), steps)
  }

  lemma StoredRunInv(limits: PolicyLimits, reg: Registry, thread: ThreadId, key: string, plan: string, now: int,
                     steps: seq<RunSystem.SysStep>)
    ensures var s := StoredRun(limits, reg, thread, key, plan, now, steps);
      RowInv(s.row) && RunSystem.OutcomeInv(s.row) && RunSystem.AnswerInv(s.row, s.answers)
  {
    RunSystem.InitialInv(thread, key, plan, now);
    RunSystem.TraceInv(limits, reg, RunSystem.Initial(thread, key, plan, now), steps);
  }

  /**
    Whatever the runner, the races and the browser's connections did: a browser that has caught up
    with a completed run shows exactly the stored answer, which is the concatenation of its deltas.
  */
  lemma CaughtUpShowsTheAnswer(limits: PolicyLimits, reg: Registry, thread: ThreadId, key: string, plan: string,
                               now: int,
                               steps: seq<RunSystem.SysStep>, w: Publication, browsing: seq<ClientStep>)
    requires ClientView.Genuine(browsing, StoredRun(limits, reg, thread, key, plan, now, steps).row.events)
    ensures var s := StoredRun(limits, reg, thread, key, plan, now, steps);
      var c := ClientTrace(w, s.row.events, browsing);
      s.row.status.Completed? && c.entry.Some? && c.entry.value.lastSeq == |s.row.events| ==>
        && c.entry.value.run.status.Completed?
        && s.answers == [c.entry.value.text] && c.entry.value.text == DeltaText(s.row.events)
  {
    var s := StoredRun(limits, reg, thread, key, plan, now, steps);
    StoredRunInv(limits, reg, thread, key, plan, now, steps);
    ClientShowsALogPrefix(w, s.row, browsing);
    assert s.row.events[..|s.row.events|] == s.row.events;
    if s.row.status.Completed? {
      FoldStatus(s.row.events);
      AnsweredText(s.row);
    }
  }

  /**
    A browser that has caught up with an ended run shows exactly the sources its outcome accepts, unless the
    cancel was detached.
  */
  lemma CaughtUpShowsTheSources(limits: PolicyLimits, reg: Registry, thread: ThreadId, key: string, plan: string,
                                now: int,
                                steps: seq<RunSystem.SysStep>, w: Publication, browsing: seq<ClientStep>)
    requires ClientView.Genuine(browsing, StoredRun(limits, reg, thread, key, plan, now, steps).row.events)
    ensures var s := StoredRun(limits, reg, thread, key, plan, now, steps);
      var c := ClientTrace(w, s.row.events, browsing);
      !s.row.status.Active() && c.entry.Some? && c.entry.value.lastSeq == |s.row.events| ==>
        && s.row.outcome.Some?
        && (!RunSystem.Detached(s.row.outcome.value) ==> Ids(c.entry.value.sources) == s.row.outcome.value.acceptedSources)
  {
    var s := StoredRun(limits, reg, thread, key, plan, now, steps);
    StoredRunInv(limits, reg, thread, key, plan, now, steps);
    ClientShowsALogPrefix(w, s.row, browsing);
    assert s.row.events[..|s.row.events|] == s.row.events;
    ShownSources(s.row.events);
  }

  /** A browser that has caught up with a failed run shows its recorded failure code, and no text. */
  lemma CaughtUpShowsTheFailure(limits: PolicyLimits, reg: Registry, thread: ThreadId, key: string, plan: string,
                                now: int,
                                steps: seq<RunSystem.SysStep>, w: Publication, browsing: seq<ClientStep>)
    requires ClientView.Genuine(browsing, StoredRun(limits, reg, thread, key, plan, now, steps).row.events)
    ensures var s := StoredRun(limits, reg, thread, key, plan, now, steps);
      var c := ClientTrace(w, s.row.events, browsing);
      s.row.status.Failed? && c.entry.Some? && c.entry.value.lastSeq == |s.row.events| ==>
        && c.entry.value.run.status.Failed? && c.entry.value.text == ""
        && s.row.outcome.Some? && s.row.outcome.value.failureCode.Some?
        && c.entry.value.failureCode == s.row.outcome.value.failureCode
  {
    var s := StoredRun(limits, reg, thread, key, plan, now, steps);
    StoredRunInv(limits, reg, thread, key, plan, now, steps);
    ClientShowsALogPrefix(w, s.row, browsing);
    assert s.row.events[..|s.row.events|] == s.row.events;
    if s.row.status.Failed? {
      RunPolicy.FailedRunSaysWhy(limits, reg, thread, key, plan, now, steps);
      FailureShown(s.row);
    }
  }

  lemma FailureShown(row: RunRow)
    requires RunPolicy.FailureAnnounced(row)
    ensures var v := Fold(row.events);
      v.text == "" && v.status.Failed? && v.failure == row.outcome.value.failureCode
  {
    var n := |row.events|;
    assert row.events == row.events[..n - 1] + [row.events[n - 1]];
    FailureLast(row.events[..n - 1], row.events[n - 1]);
  }

  lemma FailureLast(front: seq<EventRow>, e: EventRow)
    requires e.payload.RunFailed? && KnownFailureCode(e.payload.code)
    ensures var v := Fold(front + [e]);
      v.text == "" && v.status.Failed? && v.failure == Some(e.payload.code)
  {
    FoldAppend(front, e);
    KnownIsPublic(e.payload.code);
  }

  lemma KnownIsPublic(code: string)
    requires KnownFailureCode(code)
    ensures PublicCode(code) == code
  {}
}
