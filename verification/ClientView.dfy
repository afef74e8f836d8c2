/**
  The browser over time (App.tsx): monotone merges of stale snapshots, and one run's
  projection under snapshots, a live stream, 60 ms batches, disconnects and refreshes.
*/
module ClientView {
  import opened Common
  import opened RunRecords
  import opened Sse
  import opened EventView
  import opened Projection

  // ----- merging -----

  function MergeEntry(existing: RunProjection, candidate: RunProjection): RunProjection {
    if candidate.lastSeq < existing.lastSeq then existing
    else if candidate.lastSeq == existing.lastSeq then
      var merged := existing.(
        text := if existing.text != "" then existing.text else candidate.text,
        tools := if |existing.tools| >= |candidate.tools| then existing.tools else candidate.tools,
        sources := if |existing.sources| >= |candidate.sources| then existing.sources else candidate.sources);
      if candidate.run.status.Active() then merged
      else merged.(run := candidate.run, connection := Closed, cancelling := false)
    else
      candidate.(connection := if candidate.run.status.Active() then existing.connection else Closed,
                 cancelling := existing.cancelling)
  }

  function MergeMaps(current: ProjectionMap, incoming: ProjectionMap): ProjectionMap {
    map r | r in current.Keys + incoming.Keys ::
      if r !in incoming then current[r]
      else if r !in current then incoming[r]
      else MergeEntry(current[r], incoming[r])
  }

  method MergeProjectionMapsMonotonic(current: ProjectionMap, incoming: ProjectionMap) returns (next: ProjectionMap)
    ensures next == MergeMaps(current, incoming)
  {
    next := current;
    var todo := incoming.Keys;
    while todo != {}
      invariant todo <= incoming.Keys
      invariant next.Keys == current.Keys + (incoming.Keys - todo)
      invariant forall r :: r in next ==> next[r] == if r in todo then current[r] else MergeMaps(current, incoming)[r]
    {
      var r :| r in todo;
      todo := todo - {r};
      var candidate := incoming[r];
      if r !in current { next := next[r := candidate]; continue; }
      var existing := current[r];
      if candidate.lastSeq < existing.lastSeq { continue; }
      if candidate.lastSeq == existing.lastSeq {
        var merged := existing.(
          text := if existing.text != "" then existing.text else candidate.text,
          tools := if |existing.tools| >= |candidate.tools| then existing.tools else candidate.tools,
          sources := if |existing.sources| >= |candidate.sources| then existing.sources else candidate.sources);
        if !candidate.run.status.Active() {
          merged := merged.(run := candidate.run, connection := Closed, cancelling := false);
        }
        next := next[r := merged];
        continue;
      }
      next := next[r := candidate.(connection := if candidate.run.status.Active() then existing.connection else Closed,
                                   cancelling := existing.cancelling)];
    }
  }

  /** The fields a replacing merge takes over. */
  predicate TakesOver(p: RunProjection, q: RunProjection) {
    q.lastSeq > p.lastSeq || (q.lastSeq == p.lastSeq && !q.run.status.Active())
  }

  /** Merging a snapshot shows the longer of the two prefixes, and its status if it is ahead or has ended. */
  lemma MergeTracks(p: RunProjection, q: RunProjection, w: Publication, events: seq<EventRow>)
    requires Tracks(p, w, events) && Follows(q, w, events)
    ensures var m := MergeEntry(p, q);
      && Tracks(m, w, events) && m.lastSeq == (if q.lastSeq > p.lastSeq then q.lastSeq else p.lastSeq)
      && m.run.status == if TakesOver(p, q) then q.run.status else p.run.status
  {}

  /** Two projections of one run show prefixes of one log; merging them shows the longer prefix. */
  lemma MergeIsLongerPrefix(p: RunProjection, q: RunProjection, w: Publication, events: seq<EventRow>)
    requires Follows(p, w, events) && Follows(q, w, events)
    ensures var m := MergeEntry(p, q);
      Follows(m, w, events) && m.lastSeq == if q.lastSeq > p.lastSeq then q.lastSeq else p.lastSeq
  {
    MergeTracks(p, q, w, events);
  }

  /** Every projection in a map shows a prefix of its run's log. */
  ghost predicate AllFollow(m: ProjectionMap, publish: RunId -> Publication, logs: map<RunId, seq<EventRow>>) {
    forall r :: r in m ==> r in logs && Follows(m[r], publish(r), logs[r])
  }

  /** The owed fields of two maps agree. */
  ghost predicate SameViews(a: ProjectionMap, b: ProjectionMap) {
    a.Keys == b.Keys && forall r :: r in a ==> ViewOf(a[r]) == ViewOf(b[r])
  }

  lemma MergeMapsFollow(a: ProjectionMap, b: ProjectionMap, publish: RunId -> Publication,
                        logs: map<RunId, seq<EventRow>>)
    requires AllFollow(a, publish, logs) && AllFollow(b, publish, logs)
    ensures AllFollow(MergeMaps(a, b), publish, logs)
    ensures forall r :: r in a && r in b ==> MergeMaps(a, b)[r].lastSeq == if b[r].lastSeq > a[r].lastSeq then b[r].lastSeq else a[r].lastSeq
  {
    forall r | r in a && r in b
      ensures Follows(MergeEntry(a[r], b[r]), publish(r), logs[r])
      ensures MergeEntry(a[r], b[r]).lastSeq == if b[r].lastSeq > a[r].lastSeq then b[r].lastSeq else a[r].lastSeq
    {
      MergeIsLongerPrefix(a[r], b[r], publish(r), logs[r]);
    }
  }

  /** Two maps that follow the same logs to the same points show the same. */
  lemma SamePointsSameViews(a: ProjectionMap, b: ProjectionMap, publish: RunId -> Publication,
                            logs: map<RunId, seq<EventRow>>)
    requires AllFollow(a, publish, logs) && AllFollow(b, publish, logs)
    requires a.Keys == b.Keys && forall r :: r in a ==> a[r].lastSeq == b[r].lastSeq
    ensures SameViews(a, b)
  {}

  /**
    On the owed fields merging is idempotent, commutative and associative, whatever order stale snapshots
    arrive in.
  */
  lemma MergeIsIdempotent(a: ProjectionMap, publish: RunId -> Publication, logs: map<RunId, seq<EventRow>>)
    requires AllFollow(a, publish, logs)
    ensures SameViews(MergeMaps(a, a), a)
  {
    MergeMapsFollow(a, a, publish, logs);
    SamePointsSameViews(MergeMaps(a, a), a, publish, logs);
  }

  lemma MergeIsCommutative(a: ProjectionMap, b: ProjectionMap, publish: RunId -> Publication,
                           logs: map<RunId, seq<EventRow>>)
    requires AllFollow(a, publish, logs) && AllFollow(b, publish, logs)
    ensures SameViews(MergeMaps(a, b), MergeMaps(b, a))
  {
    MergeMapsFollow(a, b, publish, logs);
    MergeMapsFollow(b, a, publish, logs);
    SamePointsSameViews(MergeMaps(a, b), MergeMaps(b, a), publish, logs);
  }

  lemma MergeIsAssociative(a: ProjectionMap, b: ProjectionMap, c: ProjectionMap, publish: RunId -> Publication,
                           logs: map<RunId, seq<EventRow>>)
    requires AllFollow(a, publish, logs) && AllFollow(b, publish, logs) && AllFollow(c, publish, logs)
    ensures SameViews(MergeMaps(MergeMaps(a, b), c), MergeMaps(a, MergeMaps(b, c)))
  {
    MergeMapsFollow(a, b, publish, logs);
    MergeMapsFollow(b, c, publish, logs);
    MergeMapsFollow(MergeMaps(a, b), c, publish, logs);
    MergeMapsFollow(a, MergeMaps(b, c), publish, logs);
    MergePoints(a, b, c, publish, logs);
    SamePointsSameViews(MergeMaps(MergeMaps(a, b), c), MergeMaps(a, MergeMaps(b, c)), publish, logs);
  }

  lemma MergePoints(a: ProjectionMap, b: ProjectionMap, c: ProjectionMap, publish: RunId -> Publication,
                    logs: map<RunId, seq<EventRow>>)
    ensures var left, right := MergeMaps(MergeMaps(a, b), c), MergeMaps(a, MergeMaps(b, c));
      left.Keys == right.Keys && forall r :: r in left ==> left[r].lastSeq == right[r].lastSeq
  {
    var left, right := MergeMaps(MergeMaps(a, b), c), MergeMaps(a, MergeMaps(b, c));
    assert left.Keys == a.Keys + b.Keys + c.Keys == right.Keys;
    forall r | r in left ensures left[r].lastSeq == right[r].lastSeq {
      MergedSeq(MergeMaps(a, b), c, r);
      MergedSeq(a, MergeMaps(b, c), r);
      if r in a || r in b { MergedSeq(a, b, r); }
      if r in b || r in c { MergedSeq(b, c, r); }
    }
  }

  lemma MergedSeq(a: ProjectionMap, b: ProjectionMap, r: RunId)
    requires r in a || r in b
    ensures r in MergeMaps(a, b)
    ensures MergeMaps(a, b)[r].lastSeq ==
      if r !in b || (r in a && a[r].lastSeq >= b[r].lastSeq) then a[r].lastSeq else b[r].lastSeq
  {}

  // ----- one run over time -----

  /** The live stream of a run: its cursor and the events waiting for the render timer. */
  datatype Stream = Stream(cursor: nat, pending: seq<ProductEvent>)

  /** `ahead` says that the status was put ahead of the events shown, by a submit or a stop answer. */
  datatype Client = Client(entry: Option<RunProjection>, stream: Option<Stream>, ahead: bool)

  datatype ClientStep =
    | OpenThread(stored: RunRow)     // reset to a snapshot, connect if the run is active
    | LeaveThread
    | BeginRun(stored: RunRow)       // reset to the run view a submit answered, and connect
    | Arrives(index: nat)            // an event reaches the stream callback, perhaps again
    | RenderTimer
    | ConnectionChanges(connection: Connection)
    | Abort                          // the stream is replaced or left: waiting events are dropped
    | StreamCloses(failed: bool)
    | Refresh(stored: RunRow)        // a background snapshot, however late
    | StopRequested
    | StopAnswered(stored: RunRow, sameStream: bool) // the run view the cancel answered, however late
    | StopFails

  predicate StatusKind(kind: string) { kind == "run.started" || TerminalStatus(kind).Some? }

  /** A waiting status event that is not shown yet brings the status back into step. */
  predicate StatusWaits(pending: seq<ProductEvent>, lastSeq: int) {
    exists i :: 0 <= i < |pending| && pending[i].seqNo > lastSeq && StatusKind(pending[i].kind)
  }

  function Flushed(c: Client): Client
    requires c.stream.Some?
  {
    if c.entry.None? then c.(stream := Some(c.stream.value.(pending := [])))
    else
      Client(Some(Reduce(c.entry.value, c.stream.value.pending)), Some(c.stream.value.(pending := [])),
             c.ahead && !StatusWaits(c.stream.value.pending, c.entry.value.lastSeq))
  }

  function Connect(p: RunProjection, ahead: bool): Client {
    if p.run.status.Active()
    then Client(Some(p.(connection := Connecting)), Some(Stream(if p.lastSeq < 0 then 0 else p.lastSeq, [])), ahead)
    else Client(Some(p), None, ahead)
  }

  /** The stream callback keeps an event of its own run beyond the cursor; a terminal event is rendered at once. */
  function Received(w: Publication, c: Client, e: ProductEvent): Client
    requires c.stream.Some?
  {
    var s := c.stream.value;
    if e.runId != w.run || e.seqNo <= s.cursor then c
    else
      var waiting := c.(stream := Some(Stream(e.seqNo, s.pending + [e])));
      if TerminalStatus(e.kind).Some? then Flushed(waiting) else waiting
  }

  function Refreshed(w: Publication, c: Client, stored: RunRow): Client {
    var candidate := ProjectionFromSnapshot(SnapshotOfRow(w, stored));
    if c.entry.None? then Client(Some(candidate), None, false)
    else c.(entry := Some(MergeEntry(c.entry.value, candidate)), ahead := c.ahead && !TakesOver(c.entry.value, candidate))
  }

  /** The answered run replaces the shown one; a confirmed cancel also closes the stream it was asked from. */
  function Stopped(w: Publication, c: Client, stored: RunRow, sameStream: bool): Client {
    if c.entry.None? then c
    else
      var p := c.entry.value;
      var cancelled := stored.status.Cancelled?;
      Client(Some(p.(run := ViewOfRow(w, stored), cancelling := !cancelled, connection := if cancelled then Closed else p.connection)),
             if cancelled && sameStream then None else c.stream, stored.lastSeq > p.lastSeq)
  }

  /** The connection and the stop button are shown, but not owed to the log. */
  function WithButtons(c: Client, connection: Connection, cancelling: bool): Client
    requires c.entry.Some?
  {
    c.(entry := Some(c.entry.value.(connection := connection, cancelling := cancelling)))
  }

  /** `log` is everything the run will ever have stored. A step that is not enabled changes nothing. */
  function ClientNext(w: Publication, log: seq<EventRow>, c: Client, step: ClientStep): Client {
    match step
    case OpenThread(stored) => Connect(ProjectionFromSnapshot(SnapshotOfRow(w, stored)), false)
    case LeaveThread => Client(None, None, false)
    case BeginRun(stored) => Connect(CreateProjection(ViewOfRow(w, stored)), stored.lastSeq > 0)
    case Arrives(i) =>
      if c.stream.Some? && i < |log| && i <= c.stream.value.cursor then Received(w, c, Publish(w, log[i])) else c
    case RenderTimer => if c.stream.Some? then Flushed(c) else c
    case ConnectionChanges(connection) =>
      if c.stream.Some? && c.entry.Some? then WithButtons(c, connection, c.entry.value.cancelling) else c
    case Abort => c.(stream := None)
    case StreamCloses(failed) =>
      if c.stream.None? then c
      else
        var done := Flushed(c);
        (if failed && done.entry.Some? then WithButtons(done, Unavailable, done.entry.value.cancelling) else done).(stream := None)
    case Refresh(stored) => Refreshed(w, c, stored)
    case StopRequested =>
      if c.entry.Some? && c.entry.value.run.status.Active() && !c.entry.value.cancelling
      then WithButtons(c, c.entry.value.connection, true) else c
    case StopAnswered(stored, sameStream) => Stopped(w, c, stored, sameStream)
    case StopFails => if c.entry.Some? then WithButtons(c, c.entry.value.connection, false) else c
  }

  function ClientTrace(w: Publication, log: seq<EventRow>, steps: seq<ClientStep>): Client {
    if steps == [] then Client(None, None, false)
    else ClientNext(w, log, ClientTrace(w, log, steps[..|steps| - 1]), steps[|steps| - 1])
  }

  function RowOf(step: ClientStep): Option<RunRow> {
    match step
    case OpenThread(row) => Some(row)
    case BeginRun(row) => Some(row)
    case Refresh(row) => Some(row)
    case StopAnswered(row, _) => Some(row)
    case _ => None
  }

  /** A row that was true at some moment of the run; a cancel answers only an ended one. */
  ghost predicate GenuineStep(step: ClientStep, log: seq<EventRow>) {
    RowOf(step).Some? ==> Past(RowOf(step).value, log) && (step.StopAnswered? ==> !step.stored.status.Active())
  }

  ghost predicate Genuine(steps: seq<ClientStep>, log: seq<EventRow>) {
    forall i :: 0 <= i < |steps| ==> GenuineStep(steps[i], log)
  }

  ghost predicate Past(row: RunRow, log: seq<EventRow>) { RowInv(row) && row.events <= log }

  /** What is used of a whole log: its numbers, its opening, and that it ends at most once. */
  ghost predicate WholeLog(log: seq<EventRow>) {
    && NumberedLog(log)
    && (log != [] ==> SetsStatus(log[0].payload))
    && (forall i :: 0 <= i < |log| - 1 ==> !log[i].payload.Terminal())
  }

  /** The status is the owed one exactly when it was not put ahead; if it was, a status event is still to come. */
  ghost predicate StatusInv(p: RunProjection, ahead: bool, log: seq<EventRow>) {
    && 0 <= p.lastSeq <= |log|
    && (ahead <==> p.run.status != Replay(log[..p.lastSeq]))
    && (ahead ==> HasStatusEvent(log[p.lastSeq..]))
  }

  /** The `i`-th waiting event is the one that many places before the cursor. */
  ghost predicate WaitsFor(s: Stream, w: Publication, log: seq<EventRow>, i: nat)
    requires i < |s.pending| <= s.cursor <= |log|
  {
    s.pending[i] == Publish(w, log[s.cursor - |s.pending| + i])
  }

  ghost predicate StreamInv(s: Stream, p: RunProjection, w: Publication, log: seq<EventRow>) {
    && |s.pending| <= s.cursor <= |log| && s.cursor - |s.pending| <= p.lastSeq
    && (forall i :: 0 <= i < |s.pending| ==> WaitsFor(s, w, log, i))
  }

  lemma PendingIsLog(s: Stream, p: RunProjection, w: Publication, log: seq<EventRow>)
    requires StreamInv(s, p, w, log)
    ensures s.pending == PublishAll(w, log[s.cursor - |s.pending|..s.cursor])
  {
    forall i | 0 <= i < |s.pending| ensures s.pending[i] == PublishAll(w, log[s.cursor - |s.pending|..s.cursor])[i] {
      assert WaitsFor(s, w, log, i);
    }
  }

  ghost predicate ClientInv(c: Client, w: Publication, log: seq<EventRow>) {
    && (c.entry.Some? ==> Tracks(c.entry.value, w, log) && StatusInv(c.entry.value, c.ahead, log))
    && (c.stream.Some? ==> c.entry.Some? && StreamInv(c.stream.value, c.entry.value, w, log))
  }

  // ----- the status -----

  /** A past row follows the whole log as far as it goes. */
  lemma PastFollows(row: RunRow, w: Publication, log: seq<EventRow>)
    requires Past(row, log)
    ensures Follows(ProjectionFromSnapshot(SnapshotOfRow(w, row)), w, log)
  {
    SnapshotFollows(w, row);
    assert log[..|row.events|] == row.events && row.events[..|row.events|] == row.events;
  }

  lemma FollowsInStep(p: RunProjection, w: Publication, log: seq<EventRow>)
    requires Follows(p, w, log)
    ensures StatusInv(p, false, log)
  {}

  /** Before its last event a whole log replays to an active status. */
  lemma {:induction false} PrefixActive(log: seq<EventRow>, n: nat)
    requires WholeLog(log) && n < |log|
    ensures Replay(log[..n]).Active()
  {
    if n > 0 {
      PrefixActive(log, n - 1);
      assert log[..n][..n - 1] == log[..n - 1];
    }
  }

  /** An ended row that was true at some moment has the whole log. */
  lemma EndedHasWholeLog(row: RunRow, log: seq<EventRow>)
    requires Past(row, log) && WholeLog(log) && !row.status.Active()
    ensures row.events == log && row.lastSeq == |log| && Replay(log) == row.status
    ensures log != [] && log[|log| - 1].payload.Terminal()
  {
    var n := |row.events|;
    assert row.events[n - 1].payload.Terminal() && log[n - 1] == row.events[n - 1];
  }

  /** The answer of a cancel is ahead exactly if it has events that are not shown. */
  lemma StopStatus(p: RunProjection, row: RunRow, w: Publication, log: seq<EventRow>)
    requires WholeLog(log) && Past(row, log) && !row.status.Active() && 0 <= p.lastSeq <= |log|
    ensures StatusInv(p.(run := ViewOfRow(w, row)), row.lastSeq > p.lastSeq, log)
  {
    EndedHasWholeLog(row, log);
    if p.lastSeq < |log| {
      PrefixActive(log, p.lastSeq);
      assert log[p.lastSeq..][|log| - 1 - p.lastSeq] == log[|log| - 1];
    } else {
      assert log[..p.lastSeq] == log;
    }
  }

  /** A submit's answer is ahead exactly if the run already had events. */
  lemma BeginStatus(row: RunRow, w: Publication, log: seq<EventRow>)
    requires WholeLog(log) && Past(row, log)
    ensures StatusInv(CreateProjection(ViewOfRow(w, row)), row.lastSeq > 0, log)
  {
    assert log[..0] == [] && log[0..] == log;
    if row.lastSeq > 0 { assert log[0] == row.events[0]; }
  }

  /** Events shown move an owed status on, and bring a status that was ahead into step as soon as one sets it. */
  lemma StatusMoves(p: RunProjection, next: RunProjection, ahead: bool, log: seq<EventRow>)
    requires StatusInv(p, ahead, log) && p.lastSeq <= next.lastSeq <= |log|
    requires next.run.status == StatusFrom(p.run.status, log[p.lastSeq..next.lastSeq])
    ensures StatusInv(next, ahead && !HasStatusEvent(log[p.lastSeq..next.lastSeq]), log)
  {
    ReplayFrom(log, p.lastSeq, next.lastSeq);
    StatusesMeet(p.run.status, Replay(log[..p.lastSeq]), log[p.lastSeq..next.lastSeq]);
    assert log[p.lastSeq..] == log[p.lastSeq..next.lastSeq] + log[next.lastSeq..];
    StatusEventIn(log[p.lastSeq..next.lastSeq], log[next.lastSeq..]);
  }

  lemma PublishedHead(w: Publication, e: EventRow)
    ensures Publish(w, e).runId == w.run && Publish(w, e).seqNo == e.seqNo
    ensures StatusKind(Publish(w, e).kind) <==> SetsStatus(e.payload)
  {}

  /** The waiting status events are those of the log between what is shown and the cursor. */
  lemma WaitingStatus(s: Stream, p: RunProjection, w: Publication, log: seq<EventRow>)
    requires StreamInv(s, p, w, log) && NumberedLog(log) && 0 <= p.lastSeq <= |log|
    ensures var n := if s.cursor > p.lastSeq then s.cursor else p.lastSeq;
      StatusWaits(s.pending, p.lastSeq) <==> HasStatusEvent(log[p.lastSeq..n])
  {
    var n := if s.cursor > p.lastSeq then s.cursor else p.lastSeq;
    if StatusWaits(s.pending, p.lastSeq) { WaitingIsInLog(s, p, w, log, n); }
    if HasStatusEvent(log[p.lastSeq..n]) { InLogIsWaiting(s, p, w, log, n); }
  }

  lemma WaitingIsInLog(s: Stream, p: RunProjection, w: Publication, log: seq<EventRow>, n: nat)
    requires StreamInv(s, p, w, log) && NumberedLog(log) && 0 <= p.lastSeq <= n <= |log| && s.cursor <= n
    requires StatusWaits(s.pending, p.lastSeq)
    ensures HasStatusEvent(log[p.lastSeq..n])
  {
    var a := s.cursor - |s.pending|;
    var i :| 0 <= i < |s.pending| && s.pending[i].seqNo > p.lastSeq && StatusKind(s.pending[i].kind);
    assert WaitsFor(s, w, log, i);
    PublishedHead(w, log[a + i]);
    assert log[p.lastSeq..n][a + i - p.lastSeq] == log[a + i];
  }

  lemma InLogIsWaiting(s: Stream, p: RunProjection, w: Publication, log: seq<EventRow>, n: nat)
    requires StreamInv(s, p, w, log) && NumberedLog(log) && 0 <= p.lastSeq <= n <= |log|
    requires n == if s.cursor > p.lastSeq then s.cursor else p.lastSeq
    requires HasStatusEvent(log[p.lastSeq..n])
    ensures StatusWaits(s.pending, p.lastSeq)
  {
    var a := s.cursor - |s.pending|;
    var i :| 0 <= i < |log[p.lastSeq..n]| && SetsStatus(log[p.lastSeq..n][i].payload);
    var k := p.lastSeq + i;
    PublishedHead(w, log[k]);
    assert log[p.lastSeq..n][i] == log[k];
    assert WaitsFor(s, w, log, k - a);
    WaitsAt(s.pending, p.lastSeq, k - a);
  }

  lemma WaitsAt(pending: seq<ProductEvent>, lastSeq: int, i: nat)
    requires i < |pending| && pending[i].seqNo > lastSeq && StatusKind(pending[i].kind)
    ensures StatusWaits(pending, lastSeq)
  {}

  // ----- steps -----

  /** What the waiting events show when they are applied. */
  lemma PendingShown(s: Stream, p: RunProjection, w: Publication, log: seq<EventRow>)
    requires Tracks(p, w, log) && StreamInv(s, p, w, log) && NumberedLog(log)
    ensures var r := Reduce(p, s.pending);
      && Tracks(r, w, log) && r.lastSeq == (if s.cursor > p.lastSeq then s.cursor else p.lastSeq)
      && r.run.status == StatusFrom(p.run.status, log[p.lastSeq..r.lastSeq])
  {
    PendingIsLog(s, p, w, log);
    BatchShown(p, s.pending, w, log, s.cursor - |s.pending|, s.cursor);
  }

  lemma BatchShown(p: RunProjection, batch: seq<ProductEvent>, w: Publication, log: seq<EventRow>, a: nat, b: nat)
    requires NumberedLog(log) && Tracks(p, w, log)
    requires a <= b <= |log| && a <= p.lastSeq && batch == PublishAll(w, log[a..b])
    ensures var r := Reduce(p, batch);
      && Tracks(r, w, log) && r.lastSeq == (if b > p.lastSeq then b else p.lastSeq)
      && r.run.status == StatusFrom(p.run.status, log[p.lastSeq..r.lastSeq])
  {
    ReduceTracks(p, w, log, a, b);
  }

  lemma FlushKeeps(c: Client, w: Publication, log: seq<EventRow>)
    requires ClientInv(c, w, log) && WholeLog(log) && c.stream.Some?
    ensures ClientInv(Flushed(c), w, log) && Flushed(c).entry.value.lastSeq >= c.entry.value.lastSeq
    ensures Flushed(c).entry.value.lastSeq >= c.stream.value.cursor
  {
    var s, p := c.stream.value, c.entry.value;
    PendingShown(s, p, w, log);
    WaitingStatus(s, p, w, log);
    StatusMoves(p, Flushed(c).entry.value, c.ahead, log);
  }

  lemma OneMoreWaits(s: Stream, p: RunProjection, w: Publication, log: seq<EventRow>)
    requires StreamInv(s, p, w, log) && s.cursor < |log|
    ensures StreamInv(Stream(s.cursor + 1, s.pending + [Publish(w, log[s.cursor])]), p, w, log)
  {
    var next := Stream(s.cursor + 1, s.pending + [Publish(w, log[s.cursor])]);
    forall i | 0 <= i < |next.pending| ensures WaitsFor(next, w, log, i) {
      if i < |s.pending| { assert WaitsFor(s, w, log, i); }
    }
  }

  lemma ReceivedKeeps(c: Client, w: Publication, log: seq<EventRow>, e: ProductEvent)
    requires ClientInv(c, w, log) && WholeLog(log) && c.stream.Some? && e.runId == w.run
    requires e.seqNo > c.stream.value.cursor ==>
      ClientInv(c.(stream := Some(Stream(e.seqNo, c.stream.value.pending + [e]))), w, log)
    ensures ClientInv(Received(w, c, e), w, log) && Received(w, c, e).entry.Some?
    ensures Received(w, c, e).entry.value.lastSeq >= c.entry.value.lastSeq
  {
    if e.seqNo > c.stream.value.cursor {
      WaitingKeeps(c.(stream := Some(Stream(e.seqNo, c.stream.value.pending + [e]))), Received(w, c, e), w, log);
    }
  }

  lemma WaitingKeeps(waiting: Client, next: Client, w: Publication, log: seq<EventRow>)
    requires ClientInv(waiting, w, log) && WholeLog(log) && waiting.stream.Some?
    requires next == waiting || next == Flushed(waiting)
    ensures ClientInv(next, w, log) && next.entry.Some?
    ensures next.entry.value.lastSeq >= waiting.entry.value.lastSeq
  {
    if next != waiting { FlushKeeps(waiting, w, log); }
  }

  lemma ArrivalKeeps(c: Client, w: Publication, log: seq<EventRow>, i: nat)
    requires ClientInv(c, w, log) && WholeLog(log) && c.stream.Some? && i < |log| && i <= c.stream.value.cursor
    ensures var next := Received(w, c, Publish(w, log[i]));
      ClientInv(next, w, log) && next.entry.Some? && next.entry.value.lastSeq >= c.entry.value.lastSeq
  {
    PublishedHead(w, log[i]);
    if i == c.stream.value.cursor { OneMoreWaits(c.stream.value, c.entry.value, w, log); }
    ReceivedKeeps(c, w, log, Publish(w, log[i]));
  }

  lemma ConnectKeeps(p: RunProjection, w: Publication, ahead: bool, log: seq<EventRow>)
    requires Tracks(p, w, log) && StatusInv(p, ahead, log)
    ensures ClientInv(Connect(p, ahead), w, log)
  {}

  predicate Resets(step: ClientStep) { step.OpenThread? || step.LeaveThread? || step.BeginRun? }

  lemma OpenKeeps(w: Publication, log: seq<EventRow>, row: RunRow)
    requires Past(row, log)
    ensures ClientInv(Connect(ProjectionFromSnapshot(SnapshotOfRow(w, row)), false), w, log)
  {
    PastFollows(row, w, log);
    ConnectKeeps(ProjectionFromSnapshot(SnapshotOfRow(w, row)), w, false, log);
  }

  lemma BeginKeeps(w: Publication, log: seq<EventRow>, row: RunRow)
    requires Past(row, log) && WholeLog(log)
    ensures ClientInv(Connect(CreateProjection(ViewOfRow(w, row)), row.lastSeq > 0), w, log)
  {
    var p := CreateProjection(ViewOfRow(w, row));
    assert log[..0] == [];
    BeginStatus(row, w, log);
    ConnectKeeps(p, w, row.lastSeq > 0, log);
  }

  /** A replaced projection that shows at least as much keeps the waiting events in place. */
  lemma EntryReplaced(c: Client, w: Publication, log: seq<EventRow>, p: RunProjection, ahead: bool)
    requires ClientInv(c, w, log) && c.entry.Some?
    requires Tracks(p, w, log) && StatusInv(p, ahead, log) && p.lastSeq >= c.entry.value.lastSeq
    ensures ClientInv(c.(entry := Some(p), ahead := ahead), w, log)
  {}

  lemma RefreshKeeps(c: Client, w: Publication, log: seq<EventRow>, row: RunRow)
    requires ClientInv(c, w, log) && Past(row, log)
    ensures var next := Refreshed(w, c, row);
      && ClientInv(next, w, log)
      && (c.entry.Some? ==> next.entry.Some? && next.entry.value.lastSeq >= c.entry.value.lastSeq)
  {
    var candidate := ProjectionFromSnapshot(SnapshotOfRow(w, row));
    PastFollows(row, w, log);
    FollowsInStep(candidate, w, log);
    if c.entry.Some? {
      MergeTracks(c.entry.value, candidate, w, log);
      EntryReplaced(c, w, log, MergeEntry(c.entry.value, candidate), c.ahead && !TakesOver(c.entry.value, candidate));
    }
  }

  lemma StopKeeps(c: Client, w: Publication, log: seq<EventRow>, row: RunRow, sameStream: bool)
    requires ClientInv(c, w, log) && WholeLog(log) && Past(row, log) && !row.status.Active() && c.entry.Some?
    ensures ClientInv(Stopped(w, c, row, sameStream), w, log)
    ensures Stopped(w, c, row, sameStream).entry.value.lastSeq == c.entry.value.lastSeq
  {
    var p := Stopped(w, c, row, sameStream).entry.value;
    StopStatus(c.entry.value, row, w, log);
    EntryReplaced(c, w, log, p, row.lastSeq > p.lastSeq);
  }

  lemma ButtonsKeep(c: Client, w: Publication, log: seq<EventRow>, connection: Connection, cancelling: bool)
    requires ClientInv(c, w, log) && c.entry.Some?
    ensures ClientInv(WithButtons(c, connection, cancelling), w, log)
  {
    var p := WithButtons(c, connection, cancelling).entry.value;
    assert ViewOf(p) == ViewOf(c.entry.value);
    EntryReplaced(c, w, log, p, c.ahead);
  }

  lemma CloseKeeps(c: Client, w: Publication, log: seq<EventRow>, failed: bool)
    requires ClientInv(c, w, log) && WholeLog(log) && c.stream.Some?
    ensures var next := ClientNext(w, log, c, StreamCloses(failed));
      ClientInv(next, w, log) && next.entry.Some? && next.entry.value.lastSeq >= c.entry.value.lastSeq
  {
    FlushKeeps(c, w, log);
    ButtonsKeep(Flushed(c), w, log, Unavailable, Flushed(c).entry.value.cancelling);
  }

  lemma ButtonStepKeeps(c: Client, w: Publication, log: seq<EventRow>, step: ClientStep)
    requires ClientInv(c, w, log) && c.entry.Some?
    requires step.ConnectionChanges? || step.StopRequested? || step.StopFails?
    ensures var next := ClientNext(w, log, c, step);
      ClientInv(next, w, log) && next.entry.Some? && next.entry.value.lastSeq == c.entry.value.lastSeq
  {
    match step
    case ConnectionChanges(connection) => ButtonsKeep(c, w, log, connection, c.entry.value.cancelling);
    case StopRequested => ButtonsKeep(c, w, log, c.entry.value.connection, true);
    case StopFails => ButtonsKeep(c, w, log, c.entry.value.connection, false);
  }

  lemma StreamStepKeeps(c: Client, w: Publication, log: seq<EventRow>, step: ClientStep)
    requires ClientInv(c, w, log) && WholeLog(log)
    requires step.Arrives? || step.RenderTimer? || step.StreamCloses? || step.Abort?
    ensures var next := ClientNext(w, log, c, step);
      && ClientInv(next, w, log)
      && (c.entry.Some? ==> next.entry.Some? && next.entry.value.lastSeq >= c.entry.value.lastSeq)
  {
    match step
    case Arrives(i) =>
      if c.stream.Some? && i < |log| && i <= c.stream.value.cursor { ArrivalKeeps(c, w, log, i); }
    case RenderTimer => if c.stream.Some? { FlushKeeps(c, w, log); }
    case StreamCloses(failed) => if c.stream.Some? { CloseKeeps(c, w, log, failed); }
    case Abort =>
  }

  lemma ClientStepKeeps(c: Client, w: Publication, log: seq<EventRow>, step: ClientStep)
    requires ClientInv(c, w, log) && WholeLog(log) && GenuineStep(step, log)
    ensures var next := ClientNext(w, log, c, step);
      && ClientInv(next, w, log)
      && (!Resets(step) && c.entry.Some? ==> next.entry.Some? && next.entry.value.lastSeq >= c.entry.value.lastSeq)
  {
    match step
    case OpenThread(row) => OpenKeeps(w, log, row);
    case LeaveThread =>
    case BeginRun(row) => BeginKeeps(w, log, row);
    case Refresh(row) => RefreshKeeps(c, w, log, row);
    case StopAnswered(row, sameStream) => if c.entry.Some? { StopKeeps(c, w, log, row, sameStream); }
    case ConnectionChanges(_) => if c.entry.Some? { ButtonStepKeeps(c, w, log, step); }
    case StopRequested => if c.entry.Some? { ButtonStepKeeps(c, w, log, step); }
    case StopFails => if c.entry.Some? { ButtonStepKeeps(c, w, log, step); }
    case _ => StreamStepKeeps(c, w, log, step);
  }

  lemma {:induction false} ClientTraceInv(w: Publication, log: seq<EventRow>, steps: seq<ClientStep>)
    requires WholeLog(log) && Genuine(steps, log)
    ensures ClientInv(ClientTrace(w, log, steps), w, log)
  {
    if steps != [] {
      ClientTraceInv(w, log, steps[..|steps| - 1]);
      ClientStepKeeps(ClientTrace(w, log, steps[..|steps| - 1]), w, log, steps[|steps| - 1]);
    }
  }

  lemma RowHasWholeLog(row: RunRow)
    requires RowInv(row)
    ensures WholeLog(row.events)
  {}

  // ----- main results -----

  /**
    Whatever mix of snapshots, live events, repeats, batches, drops, late merges, submits and stop
    answers: the text, tools, sources and `lastSeq` shown are the fold of a log prefix, and so is the
    status exactly unless a submit or stop answer put it ahead and no status event or replacing
    snapshot came since. Once everything is shown the status is never ahead.
  */
  lemma ClientShowsALogPrefix(w: Publication, row: RunRow, steps: seq<ClientStep>)
    requires RowInv(row) && Genuine(steps, row.events)
    ensures var c := ClientTrace(w, row.events, steps);
      c.entry.Some? ==>
        && 0 <= c.entry.value.lastSeq <= |row.events|
        && (c.entry.value.lastSeq == |row.events| ==> !c.ahead)
        && var shown, owed := ViewOf(c.entry.value), Fold(row.events[..c.entry.value.lastSeq]);
           shown.(status := owed.status) == owed && (shown == owed <==> !c.ahead)
  {
    RowHasWholeLog(row);
    ClientTraceInv(w, row.events, steps);
    var c := ClientTrace(w, row.events, steps);
    if c.entry.Some? { FoldStatus(row.events[..c.entry.value.lastSeq]); }
  }

  /** Nothing but opening, leaving or submitting ever moves a projection back. */
  lemma LastSeqNeverFalls(w: Publication, row: RunRow, steps: seq<ClientStep>, step: ClientStep)
    requires RowInv(row) && Genuine(steps + [step], row.events) && !Resets(step)
    ensures var c, next := ClientTrace(w, row.events, steps), ClientTrace(w, row.events, steps + [step]);
      c.entry.Some? ==> next.entry.Some? && next.entry.value.lastSeq >= c.entry.value.lastSeq
  {
    var all := steps + [step];
    assert all[..|steps|] == steps && all[|steps|] == step;
    forall i | 0 <= i < |steps| ensures GenuineStep(steps[i], row.events) { assert GenuineStep(all[i], row.events); }
    assert GenuineStep(all[|steps|], row.events);
    RowHasWholeLog(row);
    ClientTraceInv(w, row.events, steps);
    ClientStepKeeps(ClientTrace(w, row.events, steps), w, row.events, step);
  }

  // ----- both ways of being ahead are real -----

  lemma OneStep(w: Publication, log: seq<EventRow>, step: ClientStep)
    ensures ClientTrace(w, log, [step]) == ClientNext(w, log, Client(None, None, false), step)
  {
    assert [step][..0] == [];
  }

  lemma TwoSteps(w: Publication, log: seq<EventRow>, a: ClientStep, b: ClientStep)
    ensures ClientTrace(w, log, [a, b]) == ClientNext(w, log, ClientTrace(w, log, [a]), b)
  {
    assert [a, b][..1] == [a];
  }

  /** A submit answered with a run that already runs shows it as running with no event shown. */
  lemma ReplayedSubmitIsAhead(w: Publication, row: RunRow)
    requires RowInv(row) && row.lastSeq > 0
    ensures Genuine([BeginRun(row)], row.events)
    ensures var c := ClientTrace(w, row.events, [BeginRun(row)]);
      c.ahead && c.entry.Some? && c.entry.value.lastSeq == 0 && c.entry.value.run.status == row.status != Fold([]).status
  {
    OneStep(w, row.events, BeginRun(row));
  }

  /** A thread opened while the run was running, then stopped, shows the end of the run before its events. */
  lemma StopAnswerIsAhead(w: Publication, open: RunRow, ended: RunRow)
    requires RowInv(ended) && Past(open, ended.events) && open.status.Running? && !ended.status.Active()
    ensures Genuine([OpenThread(open), StopAnswered(ended, true)], ended.events)
    ensures var c := ClientTrace(w, ended.events, [OpenThread(open), StopAnswered(ended, true)]);
      && c.ahead && c.entry.Some? && c.entry.value.lastSeq == open.lastSeq
      && c.entry.value.run.status == ended.status && Fold(ended.events[..open.lastSeq]).status.Running?
  {
    OneStep(w, ended.events, OpenThread(open));
    TwoSteps(w, ended.events, OpenThread(open), StopAnswered(ended, true));
    FoldStatus(open.events);
    assert ended.events[..open.lastSeq] == open.events;
    assert |open.events| == |ended.events| ==> open.events == ended.events;
  }

  /** Such runs exist: a run of one event, cancelled. */
  lemma StoppedRunExists(o: Outcome, plan: string)
    requires ValidOutcome(o) && o.status.Cancelled?
    ensures var open := StartRow(NewRow("t", "k", plan, 0)); var ended := CancelRow(open, o, 1);
      RowInv(ended) && Past(open, ended.events) && open.status.Running? && open.lastSeq > 0 && !ended.status.Active()
  {
    var made := NewRow("t", "k", plan, 0);
    NewRowInv("t", "k", plan, 0);
    RowInvKept(made, Start);
    RowInvKept(StartRow(made), RowOp.Cancel(o, 1));
  }
}
