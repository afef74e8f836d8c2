/** The browser's view of a run (App.tsx): a fold over its events, and merges with stale snapshots. */
module Projection {
  import opened Common
  import opened RunRecords
  import opened Database
  import Json
  import opened Sse
  import opened EventView

  datatype Connection = Connecting | Live | Reconnecting | Unavailable | Closed

  datatype RunView = RunView(runId: string, threadId: string, status: RunStatus, lastSeq: int)

  datatype Tool = Tool(id: string, name: string, title: string, input: Option<string>, output: Option<string>, completed: bool)

  datatype Source = Source(id: string, title: string, description: string)

  datatype RunProjection = RunProjection(
    run: RunView, text: string, tools: seq<Tool>, sources: seq<Source>, lastSeq: int,
    connection: Connection, cancelling: bool, failureCode: Option<string>)

  function CreateProjection(run: RunView): RunProjection {
    RunProjection(run, "", [], [], 0, if run.status.Active() then Connecting else Closed, false, None)
  }

  // ----- applyEvent -----

  /** The string a name holds; a missing or different value reads as the empty string, which is equally falsy. */
  function GetString(data: Json.Value, name: string): string {
    if !data.Obj? then ""
    else
      match TextField(data.fields, name)
      case Some(s) => s
      case None => ""
  }

  function NonEmpty(s: string): Option<string> { if s == "" then None else Some(s) }

  function FindTool(tools: seq<Tool>, id: string): (r: Option<nat>)
    ensures r.Some? ==> r.value < |tools| && tools[r.value].id == id
    ensures r.None? ==> forall i :: 0 <= i < |tools| ==> tools[i].id != id
  {
    if tools == [] then None
    else if tools[0].id == id then Some(0)
    else
      var rest := FindTool(tools[1..], id);
      if rest.Some? then Some(rest.value + 1) else None
  }

  function FindSource(sources: seq<Source>, id: string): (r: Option<nat>)
    ensures r.Some? ==> r.value < |sources| && sources[r.value].id == id
    ensures r.None? ==> forall i :: 0 <= i < |sources| ==> sources[i].id != id
  {
    if sources == [] then None
    else if sources[0].id == id then Some(0)
    else
      var rest := FindSource(sources[1..], id);
      if rest.Some? then Some(rest.value + 1) else None
  }

  function UpsertTool(tools: seq<Tool>, tool: Tool): seq<Tool> {
    var at := FindTool(tools, tool.id);
    if at.None? then tools + [tool]
    else
      var item := tools[at.value];
      tools[at.value := tool.(input := if tool.input.Some? then tool.input else item.input,
                              output := if tool.output.Some? then tool.output else item.output)]
  }

  function UpsertSource(sources: seq<Source>, source: Source): seq<Source> {
    var at := FindSource(sources, source.id);
    if at.None? then sources + [source] else sources[at.value := source]
  }

  /** The input summary a finished call inherits from its start. */
  function KnownInput(tools: seq<Tool>, id: string): Option<string> {
    var at := FindTool(tools, id);
    if at.None? then None else tools[at.value].input
  }

  function ApplyToolEvent(p: RunProjection, e: ProductEvent): RunProjection {
    var id, name, title := GetString(e.data, "tool_call_id"), GetString(e.data, "name"), GetString(e.data, "label");
    if id == "" || name == "" || title == "" then p
    else if e.kind == "tool.started" then
      p.(tools := UpsertTool(p.tools, Tool(id, name, title, NonEmpty(GetString(e.data, "input_summary")), None, false)))
    else
      var output := GetString(e.data, "output_summary");
      if output == "" then p
      else p.(tools := UpsertTool(p.tools, Tool(id, name, title, KnownInput(p.tools, id), Some(output), true)))
  }

  function TerminalStatus(kind: string): Option<RunStatus> {
    if kind == "run.completed" then Some(Completed)
    else if kind == "run.failed" then Some(Failed)
    else if kind == "run.cancelled" then Some(Cancelled)
    else None
  }

  predicate KnownFailureCode(code: string) {
    code in {"run_timeout", "agent_execution_failed", "service_restarted", "model_step_limit", "tool_call_limit",
             "repeated_tool_call", "no_progress", "tool_not_allowed", "result_schema_invalid", "source_validation_failed"}
  }

  function ApplyEvent(p: RunProjection, e: ProductEvent): RunProjection {
    if e.runId != p.run.runId || e.threadId != p.run.threadId || e.seqNo <= p.lastSeq then p
    else
      var next := p.(lastSeq := e.seqNo, run := p.run.(lastSeq := e.seqNo));
      if e.kind == "run.started" then next.(run := next.run.(status := Running))
      else if e.kind == "message.delta" then next.(text := next.text + GetString(e.data, "delta"))
      else if e.kind == "tool.started" || e.kind == "tool.finished" then ApplyToolEvent(next, e)
      else if e.kind == "source.added" then
        var id, title, description := GetString(e.data, "source_id"), GetString(e.data, "label"), GetString(e.data, "description");
        if id == "" || title == "" || description == "" then next
        else next.(sources := UpsertSource(next.sources, Source(id, title, description)))
      else if e.kind == "message.completed" then
        var message := if e.data.Obj? then Lookup(e.data.fields, "message") else None;
        if message.Some? && message.value.Obj? && TextField(message.value.fields, "content").Some?
        then next.(text := TextField(message.value.fields, "content").value) else next
      else
        var terminal := TerminalStatus(e.kind);
        if terminal.None? then next
        else
          var code := GetString(e.data, "error_code");
          next.(text := if terminal == Some(Failed) then "" else next.text,
                connection := Closed, cancelling := false,
                failureCode := if KnownFailureCode(code) then Some(code) else next.failureCode,
                run := next.run.(status := terminal.value))
  }

  function Reduce(p: RunProjection, events: seq<ProductEvent>): RunProjection {
    if events == [] then p else ApplyEvent(Reduce(p, events[..|events| - 1]), events[|events| - 1])
  }

  // ----- the fold a projection should equal -----

  /** The fields a projection owes to the log. */
  datatype View = View(
    text: string, tools: seq<Tool>, sources: seq<Source>, status: RunStatus, lastSeq: int, failure: Option<string>)

  function ViewOf(p: RunProjection): View { View(p.text, p.tools, p.sources, p.run.status, p.lastSeq, p.failureCode) }

  function ViewTool(tools: seq<Tool>, p: Payload): seq<Tool> {
    match p
    case ToolStarted(id, name, title, summary) =>
      if id == "" || name == "" || title == "" then tools
      else UpsertTool(tools, Tool(id, name, title, if summary.Some? then NonEmpty(summary.value) else None, None, false))
    case ToolFinished(id, name, title, result) =>
      if id == "" || name == "" || title == "" || result == "" then tools
      else UpsertTool(tools, Tool(id, name, title, KnownInput(tools, id), Some(result), true))
    case _ => tools
  }

  function ViewText(text: string, p: Payload): string {
    match p
    case MessageDelta(delta) => text + delta
    case MessageCompleted(content) => content
    case RunFailed(_, _) => ""
    case _ => text
  }

  function ViewSources(sources: seq<Source>, p: Payload): seq<Source> {
    match p
    case SourceAdded(id, title, description) =>
      if id == "" || title == "" || description == "" then sources else UpsertSource(sources, Source(id, title, description))
    case _ => sources
  }

  /** The code of a failure, if the page knows it. */
  function ViewFailure(failure: Option<string>, p: Payload): Option<string> {
    if p.RunFailed? && KnownFailureCode(PublicCode(p.code)) then Some(PublicCode(p.code)) else failure
  }

  /** What one stored event does to the view. */
  function StepView(v: View, e: EventRow): View {
    View(ViewText(v.text, e.payload), ViewTool(v.tools, e.payload), ViewSources(v.sources, e.payload),
         StatusAfter(v.status, e.payload), e.seqNo, ViewFailure(v.failure, e.payload))
  }

  /** The view after a log. */
  function Fold(events: seq<EventRow>): View {
    if events == [] then View("", [], [], Created, 0, None)
    else StepView(Fold(events[..|events| - 1]), events[|events| - 1])
  }

  lemma FoldAppend(events: seq<EventRow>, e: EventRow)
    ensures Fold(events + [e]) == StepView(Fold(events), e)
  {
    assert (events + [e])[..|events|] == events;
  }

  ghost predicate NumberedLog(events: seq<EventRow>) {
    forall i :: 0 <= i < |events| ==> events[i].seqNo == i + 1
  }

  lemma {:induction false} FoldStatus(events: seq<EventRow>)
    ensures Fold(events).status == Replay(events)
  {
    if events != [] { FoldStatus(events[..|events| - 1]); }
  }

  /** The events that say what the status is. */
  predicate SetsStatus(p: Payload) { p.RunStarted? || p.Terminal() }

  predicate HasStatusEvent(events: seq<EventRow>) { exists i :: 0 <= i < |events| && SetsStatus(events[i].payload) }

  /** The status after some events, from any status before them. */
  function StatusFrom(status: RunStatus, events: seq<EventRow>): RunStatus {
    if events == [] then status
    else StatusAfter(StatusFrom(status, events[..|events| - 1]), events[|events| - 1].payload)
  }

  /** Two statuses agree after the same events exactly when they agreed before or a status event came. */
  lemma {:induction false} StatusesMeet(a: RunStatus, b: RunStatus, events: seq<EventRow>)
    ensures StatusFrom(a, events) == StatusFrom(b, events) <==> a == b || HasStatusEvent(events)
  {
    if events != [] {
      var front, last := events[..|events| - 1], events[|events| - 1];
      StatusesMeet(a, b, front);
      assert events == front + [last];
      StatusEventIn(front, [last]);
      assert SetsStatus(last.payload) <==> HasStatusEvent([last]) by {
        if SetsStatus(last.payload) { assert SetsStatus([last][0].payload); }
      }
    }
  }

  lemma StatusEventIn(a: seq<EventRow>, b: seq<EventRow>)
    ensures HasStatusEvent(a + b) <==> HasStatusEvent(a) || HasStatusEvent(b)
  {
    if HasStatusEvent(a) {
      var i :| 0 <= i < |a| && SetsStatus(a[i].payload);
      assert (a + b)[i] == a[i];
    }
    if HasStatusEvent(b) {
      var i :| 0 <= i < |b| && SetsStatus(b[i].payload);
      assert (a + b)[|a| + i] == b[i];
    }
  }

  lemma {:induction false} ReplayFrom(events: seq<EventRow>, a: nat, b: nat)
    requires a <= b <= |events|
    ensures Replay(events[..b]) == StatusFrom(Replay(events[..a]), events[a..b])
    decreases b - a
  {
    if a < b {
      ReplayFrom(events, a, b - 1);
      assert events[a..b][..b - a - 1] == events[a..b - 1] && events[..b][..b - 1] == events[..b - 1];
    }
  }

  // ----- one event -----

  ghost predicate Shows(p: RunProjection, w: Publication) { p.run.runId == w.run && p.run.threadId == w.thread }

  lemma OneField(name: string, s: string)
    ensures GetString(Json.Obj([Text(name, s)]), name) == s
  {
    LookupAt([Text(name, s)], 0);
  }

  lemma ToolFields(w: Publication, p: Payload)
    requires p.ToolStarted? || p.ToolFinished?
    ensures var data := DataOfPayload(w, p);
      GetString(data, "tool_call_id") == p.callId && GetString(data, "name") == p.name && GetString(data, "label") == p.title
  {
    var f := DataOfPayload(w, p).fields;
    LookupAt(f, 0);
    LookupAt(f, 1);
    LookupAt(f, 2);
  }

  lemma InputField(w: Publication, p: Payload)
    requires p.ToolStarted?
    ensures GetString(DataOfPayload(w, p), "input_summary") == if p.summary.Some? then p.summary.value else ""
  {
    var f := DataOfPayload(w, p).fields;
    if |f| == 4 { LookupAt(f, 3); } else { NoField(f, "input_summary"); }
  }

  lemma OutputField(w: Publication, p: Payload)
    requires p.ToolFinished?
    ensures GetString(DataOfPayload(w, p), "output_summary") == p.result
  {
    LookupAt(DataOfPayload(w, p).fields, 3);
  }

  lemma {:induction false} NoField(fields: seq<Json.Field>, name: string)
    requires forall i :: 0 <= i < |fields| ==> fields[i].name != name
    ensures Lookup(fields, name).None?
  {
    if fields != [] { NoField(fields[..|fields| - 1], name); }
  }

  lemma SourceFields(w: Publication, p: Payload)
    requires p.SourceAdded?
    ensures var data := DataOfPayload(w, p);
      GetString(data, "source_id") == p.sourceId && GetString(data, "label") == p.title && GetString(data, "description") == p.description
  {
    var f := DataOfPayload(w, p).fields;
    LookupAt(f, 0);
    LookupAt(f, 1);
    LookupAt(f, 2);
  }

  lemma MessageField(w: Publication, content: string)
    ensures var message := Lookup(DataOfPayload(w, MessageCompleted(content)).fields, "message");
      message.Some? && message.value.Obj? && TextField(message.value.fields, "content") == Some(content)
  {
    var f := DataOfPayload(w, MessageCompleted(content)).fields;
    LookupAt(f, 0);
    LookupAt(f[0].value.fields, 2);
  }

  lemma StartPublished(w: Publication, p: RunProjection, e: EventRow)
    requires Shows(p, w) && e.seqNo > p.lastSeq && e.payload.ToolStarted?
    ensures ViewOf(ApplyEvent(p, Publish(w, e))) == StepView(ViewOf(p), e)
    ensures Shows(ApplyEvent(p, Publish(w, e)), w)
  {
    ToolFields(w, e.payload);
    InputField(w, e.payload);
  }

  lemma FinishPublished(w: Publication, p: RunProjection, e: EventRow)
    requires Shows(p, w) && e.seqNo > p.lastSeq && e.payload.ToolFinished?
    ensures ViewOf(ApplyEvent(p, Publish(w, e))) == StepView(ViewOf(p), e)
    ensures Shows(ApplyEvent(p, Publish(w, e)), w)
  {
    ToolFields(w, e.payload);
    OutputField(w, e.payload);
  }

  /** A published event changes exactly the owed fields, as the stored event says. */
  lemma ApplyPublished(w: Publication, p: RunProjection, e: EventRow)
    requires Shows(p, w) && e.seqNo > p.lastSeq
    ensures ViewOf(ApplyEvent(p, Publish(w, e))) == StepView(ViewOf(p), e)
    ensures Shows(ApplyEvent(p, Publish(w, e)), w)
  {
    match e.payload
    case MessageDelta(delta) => OneField("delta", delta);
    case ToolStarted(_, _, _, _) => StartPublished(w, p, e);
    case ToolFinished(_, _, _, _) => FinishPublished(w, p, e);
    case SourceAdded(_, _, _) => SourceFields(w, e.payload);
    case MessageCompleted(content) => MessageField(w, content);
    case RunStarted =>
    case _ => TerminalPublished(w, p, e);
  }

  /** The error code of a published terminal event: the public code of a failure, and none otherwise. */
  lemma CodeField(w: Publication, p: Payload)
    requires p.Terminal()
    ensures GetString(DataOfPayload(w, p), "error_code") == if p.RunFailed? then PublicCode(p.code) else ""
  {
    var f := DataOfPayload(w, p).fields;
    if p.RunFailed? { LookupAt(f, 1); } else { NoField(f, "error_code"); }
  }

  lemma TerminalPublished(w: Publication, p: RunProjection, e: EventRow)
    requires Shows(p, w) && e.seqNo > p.lastSeq && e.payload.Terminal()
    ensures ViewOf(ApplyEvent(p, Publish(w, e))) == StepView(ViewOf(p), e)
    ensures Shows(ApplyEvent(p, Publish(w, e)), w)
  {
    CodeField(w, e.payload);
    assert !KnownFailureCode("");
    assert TerminalStatus(KindOf(e.payload)) == Some(StatusAfter(p.run.status, e.payload));
  }

  /** A projection shows the text, tools and sources of its run's log up to its own `lastSeq`. */
  ghost predicate Tracks(p: RunProjection, w: Publication, events: seq<EventRow>) {
    && Shows(p, w) && 0 <= p.lastSeq <= |events|
    && ViewOf(p) == Fold(events[..p.lastSeq]).(status := p.run.status)
  }

  /** It shows the status of that prefix too. */
  ghost predicate Follows(p: RunProjection, w: Publication, events: seq<EventRow>) {
    Tracks(p, w, events) && p.run.status == Replay(events[..p.lastSeq])
  }

  lemma FollowsIsFold(p: RunProjection, w: Publication, events: seq<EventRow>)
    requires Tracks(p, w, events)
    ensures Follows(p, w, events) <==> ViewOf(p) == Fold(events[..p.lastSeq])
  {
    FoldStatus(events[..p.lastSeq]);
  }

  lemma StepTracks(p: RunProjection, w: Publication, events: seq<EventRow>, i: nat)
    requires NumberedLog(events) && Tracks(p, w, events) && i < |events| && i <= p.lastSeq
    ensures var r := ApplyEvent(p, Publish(w, events[i]));
      && Tracks(r, w, events) && r.lastSeq == (if i == p.lastSeq then i + 1 else p.lastSeq)
      && r.run.status == StatusFrom(p.run.status, events[p.lastSeq..r.lastSeq])
  {
    if i == p.lastSeq {
      ApplyPublished(w, p, events[i]);
      assert events[..i + 1] == events[..i] + [events[i]];
      FoldAppend(events[..i], events[i]);
      assert events[i..i + 1] == [events[i]] && [events[i]][..0] == [];
    }
  }

  lemma {:induction false} StatusFromJoin(status: RunStatus, events: seq<EventRow>, a: nat, b: nat, c: nat)
    requires a <= b <= c <= |events|
    ensures StatusFrom(status, events[a..c]) == StatusFrom(StatusFrom(status, events[a..b]), events[b..c])
    decreases c - b
  {
    if b < c {
      StatusFromJoin(status, events, a, b, c - 1);
      assert events[a..c][..c - a - 1] == events[a..c - 1] && events[b..c][..c - b - 1] == events[b..c - 1];
    }
  }

  /** A projection brought further in its log: the shown prefix and the status moved on together. */
  ghost predicate Advanced(p: RunProjection, r: RunProjection, w: Publication, events: seq<EventRow>) {
    && Tracks(r, w, events) && 0 <= p.lastSeq <= r.lastSeq
    && r.run.status == StatusFrom(p.run.status, events[p.lastSeq..r.lastSeq])
  }

  function Later(a: nat, b: nat): nat { if a > b then a else b }

  /** One more event, the one with index `i`, after a batch. */
  lemma StepAfter(p: RunProjection, before: RunProjection, after: RunProjection, w: Publication, events: seq<EventRow>,
                  e: ProductEvent, i: nat)
    requires NumberedLog(events) && Advanced(p, before, w, events) && i < |events| && i <= before.lastSeq
    requires IsEvent(w, events, e, i) && Applied(before, e, after)
    ensures Advanced(p, after, w, events) && after.lastSeq == Later(i + 1, before.lastSeq)
  {
    StepTracks(before, w, events, i);
    StatusFromJoin(p.run.status, events, p.lastSeq, before.lastSeq, after.lastSeq);
  }

  ghost predicate IsEvent(w: Publication, events: seq<EventRow>, e: ProductEvent, i: nat)
    requires i < |events|
  {
    e == Publish(w, events[i])
  }

  ghost predicate Applied(before: RunProjection, e: ProductEvent, after: RunProjection) {
    after == ApplyEvent(before, e)
  }

  /** The projections on the way through a batch. */
  ghost predicate Path(states: seq<RunProjection>, batch: seq<ProductEvent>) {
    |states| == |batch| + 1 && forall i :: 0 <= i < |batch| ==> Applied(states[i], batch[i], states[i + 1])
  }

  lemma {:induction false} ReducePath(p: RunProjection, batch: seq<ProductEvent>) returns (states: seq<RunProjection>)
    ensures Path(states, batch) && states[0] == p && states[|batch|] == Reduce(p, batch)
  {
    if batch == [] { return [p]; }
    var n := |batch| - 1;
    var front := ReducePath(p, batch[..n]);
    states := front + [Reduce(p, batch)];
    forall i | 0 <= i < |batch| ensures Applied(states[i], batch[i], states[i + 1]) {
      if i < n { assert Applied(front[i], batch[..n][i], front[i + 1]); }
    }
  }

  lemma {:induction false} PathTracks(p: RunProjection, w: Publication, events: seq<EventRow>, a: nat,
                                      batch: seq<ProductEvent>, states: seq<RunProjection>, n: nat)
    requires NumberedLog(events) && Tracks(p, w, events) && a <= p.lastSeq && n <= |batch| && a + |batch| <= |events|
    requires forall i :: 0 <= i < |batch| ==> IsEvent(w, events, batch[i], a + i)
    requires Path(states, batch) && states[0] == p
    ensures Advanced(p, states[n], w, events) && states[n].lastSeq == Later(a + n, p.lastSeq)
    decreases n
  {
    if n > 0 {
      var m := n - 1;
      PathTracks(p, w, events, a, batch, states, m);
      assert Applied(states[m], batch[m], states[m + 1]) && IsEvent(w, events, batch[m], a + m);
      StepAfter(p, states[m], states[n], w, events, batch[m], a + m);
    } else {
      NothingNew(p, w, events);
    }
  }

  lemma NothingNew(p: RunProjection, w: Publication, events: seq<EventRow>)
    requires Tracks(p, w, events)
    ensures Advanced(p, p, w, events)
  {
    assert events[p.lastSeq..p.lastSeq] == [];
  }

  /**
    A batch of consecutive events, possibly overlapping what is shown, extends the shown prefix and
    nothing else; the status moves on by the new events.
  */
  lemma ReduceTracks(p: RunProjection, w: Publication, events: seq<EventRow>, a: nat, b: nat)
    requires NumberedLog(events) && Tracks(p, w, events)
    requires a <= b <= |events| && a <= p.lastSeq
    ensures var r := Reduce(p, PublishAll(w, events[a..b]));
      Advanced(p, r, w, events) && r.lastSeq == Later(b, p.lastSeq)
  {
    var batch := PublishAll(w, events[a..b]);
    var states := ReducePath(p, batch);
    PathTracks(p, w, events, a, batch, states, b - a);
  }

  // ----- snapshots -----

  datatype RunSnapshot = RunSnapshot(view: RunView, events: seq<ProductEvent>)

  function ProjectionFromSnapshot(run: RunSnapshot): RunProjection {
    var projected := Reduce(CreateProjection(run.view), run.events);
    projected.(run := run.view, lastSeq := run.view.lastSeq, connection := if run.view.status.Active() then Connecting else Closed)
  }

  function ViewOfRow(w: Publication, row: RunRow): RunView { RunView(w.run, w.thread, row.status, row.lastSeq) }

  function SnapshotOfRow(w: Publication, row: RunRow): RunSnapshot {
    RunSnapshot(ViewOfRow(w, row), PublishAll(w, row.events))
  }

  /** What a stored row shows, whatever status the view it starts from carries. */
  lemma SnapshotFollows(w: Publication, row: RunRow)
    requires RowInv(row)
    ensures var p := ProjectionFromSnapshot(SnapshotOfRow(w, row));
      Follows(p, w, row.events) && p.lastSeq == |row.events|
  {
    var n := |row.events|;
    assert row.events[..0] == [] && row.events[0..n] == row.events && row.events[..n] == row.events;
    ReduceTracks(CreateProjection(ViewOfRow(w, row)), w, row.events, 0, n);
  }

  // ----- snapshots of a whole thread -----

  datatype ThreadSnapshot = ThreadSnapshot(runs: seq<RunSnapshot>, active: Option<RunView>, messages: seq<MessageRow>)

  type ProjectionMap = map<RunId, RunProjection>

  /** The projection of each run; a repeated run id keeps its last entry. */
  function FromRuns(runs: seq<RunSnapshot>): ProjectionMap {
    if runs == [] then map[]
    else
      var last := runs[|runs| - 1];
      FromRuns(runs[..|runs| - 1])[last.view.runId := ProjectionFromSnapshot(last)]
  }

  function WithActive(m: ProjectionMap, active: Option<RunView>): ProjectionMap {
    if active.Some? && active.value.runId !in m then m[active.value.runId := CreateProjection(active.value)] else m
  }

  /** An assistant message supplies the text of a run that shows none. */
  function FillOne(m: ProjectionMap, message: MessageRow): ProjectionMap {
    if message.role.Assistant? && message.run != "" && message.run in m && m[message.run].text == ""
    then m[message.run := m[message.run].(text := message.content)] else m
  }

  function FillMessages(m: ProjectionMap, messages: seq<MessageRow>): ProjectionMap {
    if messages == [] then m else FillOne(FillMessages(m, messages[..|messages| - 1]), messages[|messages| - 1])
  }

  method ProjectionsFromSnapshot(snapshot: ThreadSnapshot) returns (projections: ProjectionMap)
    ensures projections == FillMessages(WithActive(FromRuns(snapshot.runs), snapshot.active), snapshot.messages)
  {
    projections := map[];
    for i := 0 to |snapshot.runs|
      invariant projections == FromRuns(snapshot.runs[..i])
    {
      assert snapshot.runs[..i + 1][..i] == snapshot.runs[..i];
      var run := snapshot.runs[i];
      projections := projections[run.view.runId := ProjectionFromSnapshot(run)];
    }
    assert snapshot.runs[..|snapshot.runs|] == snapshot.runs;
    if snapshot.active.Some? && snapshot.active.value.runId !in projections {
      projections := projections[snapshot.active.value.runId := CreateProjection(snapshot.active.value)];
    }
    ghost var listed := projections;
    for i := 0 to |snapshot.messages|
      invariant projections == FillMessages(listed, snapshot.messages[..i])
    {
      assert snapshot.messages[..i + 1][..i] == snapshot.messages[..i];
      var message := snapshot.messages[i];
      if !message.role.Assistant? || message.run == "" { continue; }
      if message.run in projections && projections[message.run].text == "" {
        projections := projections[message.run := projections[message.run].(text := message.content)];
      }
    }
    assert snapshot.messages[..|snapshot.messages|] == snapshot.messages;
  }

  /** An atomic read of one thread of the database. */
  ghost predicate SnapshotOf(s: ThreadSnapshot, db: Db, t: ThreadId, publish: RunId -> Publication) {
    && (forall r {:trigger publish(r)} :: publish(r).run == r)
    && (forall i :: 0 <= i < |s.runs| ==> Listed(s.runs[i], db, t, publish))
    && (forall r :: r in db.runs && db.runs[r].thread == t ==> r in RunIds(s.runs))
    && (s.active.Some? ==> s.active.value.runId in db.runs && db.runs[s.active.value.runId].thread == t)
    && s.messages == Filter(db.messages, (m: MessageRow) => m.thread == t)
  }

  ghost predicate Listed(run: RunSnapshot, db: Db, t: ThreadId, publish: RunId -> Publication) {
    var r := run.view.runId;
    r in db.runs && db.runs[r].thread == t && run == SnapshotOfRow(publish(r), db.runs[r])
  }

  function RunIds(runs: seq<RunSnapshot>): seq<RunId> {
    seq(|runs|, i requires 0 <= i < |runs| => runs[i].view.runId)
  }

  /** A projection shows the whole stored log of a run of the thread. */
  ghost predicate ShowsRun(p: RunProjection, db: Db, t: ThreadId, w: Publication, r: RunId) {
    r in db.runs && db.runs[r].thread == t && ViewOf(p) == Fold(db.runs[r].events) && Shows(p, w)
  }

  lemma ListedShows(run: RunSnapshot, db: Db, t: ThreadId, publish: RunId -> Publication)
    requires RowsOk(db) && Listed(run, db, t, publish)
    ensures ShowsRun(ProjectionFromSnapshot(run), db, t, publish(run.view.runId), run.view.runId)
  {
    var r := run.view.runId;
    var row := db.runs[r];
    SnapshotFollows(publish(r), row);
    FollowsIsFold(ProjectionFromSnapshot(run), publish(r), row.events);
    assert row.events[..|row.events|] == row.events;
  }

  lemma AllListedShow(s: ThreadSnapshot, db: Db, t: ThreadId, publish: RunId -> Publication)
    requires RowsOk(db) && SnapshotOf(s, db, t, publish)
    ensures forall i :: 0 <= i < |s.runs| ==>
      ShowsRun(ProjectionFromSnapshot(s.runs[i]), db, t, publish(s.runs[i].view.runId), s.runs[i].view.runId)
  {
    forall i | 0 <= i < |s.runs|
      ensures ShowsRun(ProjectionFromSnapshot(s.runs[i]), db, t, publish(s.runs[i].view.runId), s.runs[i].view.runId)
    {
      assert Listed(s.runs[i], db, t, publish);
      ListedShows(s.runs[i], db, t, publish);
    }
  }

  lemma {:induction false} FromRunsShow(runs: seq<RunSnapshot>, db: Db, t: ThreadId, publish: RunId -> Publication)
    requires forall i :: 0 <= i < |runs| ==>
      ShowsRun(ProjectionFromSnapshot(runs[i]), db, t, publish(runs[i].view.runId), runs[i].view.runId)
    ensures forall r :: r in RunIds(runs) ==> r in FromRuns(runs)
    ensures forall r :: r in FromRuns(runs) ==> ShowsRun(FromRuns(runs)[r], db, t, publish(r), r)
  {
    if runs != [] {
      var front, last := runs[..|runs| - 1], runs[|runs| - 1];
      FromRunsShow(front, db, t, publish);
      assert RunIds(runs) == RunIds(front) + [last.view.runId];
    }
  }

  /** The text of a run with an announced answer is that answer. */
  lemma AnsweredText(row: RunRow)
    requires RowInv(row) && row.status.Completed?
    ensures AnnouncedAnswer(row) == Some(Fold(row.events).text)
  {
    var n := |row.events|;
    var front, a, b := row.events[..n - 2], row.events[n - 2], row.events[n - 1];
    assert a.payload.MessageCompleted? && b.payload.Terminal();
    assert row.events == front + [a] + [b];
    ReplayAppend(front + [a], b);
    FoldAppend(front, a);
    FoldAppend(front + [a], b);
  }

  /** No message would change the text of the run it belongs to. */
  ghost predicate TextsAgree(m: ProjectionMap, messages: seq<MessageRow>) {
    forall i :: 0 <= i < |messages| && messages[i].role.Assistant? && messages[i].run in m ==>
      m[messages[i].run].text == messages[i].content
  }

  lemma {:induction false} FillChangesNothing(m: ProjectionMap, messages: seq<MessageRow>)
    requires TextsAgree(m, messages)
    ensures FillMessages(m, messages) == m
  {
    if messages != [] {
      FillChangesNothing(m, messages[..|messages| - 1]);
      var message := messages[|messages| - 1];
      if message.role.Assistant? && message.run in m {
        assert m[message.run].text == message.content;
        assert m[message.run := m[message.run].(text := message.content)] == m;
      }
    }
  }

  /** The only assistant message of a run is the answer of its completed log. */
  lemma MessageIsAnswer(db: Db, i: nat)
    requires References(db) && RowsOk(db) && i < |db.messages| && db.messages[i].role.Assistant?
    requires forall r :: r in db.runs ==> MessagesMatch(db, r)
    ensures var message := db.messages[i];
      message.run in db.runs && message.content == Fold(db.runs[message.run].events).text
  {
    var message := db.messages[i];
    assert message in db.messages;
    assert message.run in db.runs && MessagesMatch(db, message.run);
    assert message in MessagesOf(db, message.run, Assistant);
    AnswerAnnounced(db, message.run, message);
    AnsweredText(db.runs[message.run]);
  }

  lemma AnswerAnnounced(db: Db, r: RunId, message: MessageRow)
    requires r in db.runs && MessagesMatch(db, r) && message in MessagesOf(db, r, Assistant)
    ensures db.runs[r].status.Completed? && AnnouncedAnswer(db.runs[r]) == Some(message.content)
  {}

  lemma MessagesAgree(s: ThreadSnapshot, db: Db, t: ThreadId, publish: RunId -> Publication, m: ProjectionMap)
    requires References(db) && RowsOk(db) && forall r :: r in db.runs ==> MessagesMatch(db, r)
    requires forall i :: 0 <= i < |s.messages| ==> s.messages[i] in db.messages
    requires forall r :: r in m ==> ShowsRun(m[r], db, t, publish(r), r)
    ensures TextsAgree(m, s.messages)
  {
    forall i | 0 <= i < |s.messages| && s.messages[i].role.Assistant? && s.messages[i].run in m
      ensures m[s.messages[i].run].text == s.messages[i].content
    {
      assert s.messages[i] in db.messages;
      var j :| 0 <= j < |db.messages| && db.messages[j] == s.messages[i];
      MessageIsAnswer(db, j);
      assert ShowsRun(m[s.messages[i].run], db, t, publish(s.messages[i].run), s.messages[i].run);
    }
  }

  lemma EveryRunListed(s: ThreadSnapshot, db: Db, t: ThreadId, publish: RunId -> Publication, m: ProjectionMap)
    requires SnapshotOf(s, db, t, publish) && forall r :: r in RunIds(s.runs) ==> r in m
    ensures WithActive(m, s.active) == m
    ensures forall r :: r in db.runs && db.runs[r].thread == t ==> r in m
    ensures forall i :: 0 <= i < |s.messages| ==> s.messages[i] in db.messages
  {}

  /**
    What a thread snapshot shows of each run is the fold of that run's whole log:
    the active-run fallback and the text taken from messages never change anything.
  */
  lemma SnapshotShowsTheLog(s: ThreadSnapshot, db: Db, t: ThreadId, publish: RunId -> Publication)
    requires DbInv(db) && SnapshotOf(s, db, t, publish)
    ensures var m := FillMessages(WithActive(FromRuns(s.runs), s.active), s.messages);
      && (forall r :: r in db.runs && db.runs[r].thread == t ==> r in m)
      && (forall r :: r in m ==> ShowsRun(m[r], db, t, publish(r), r))
  {
    var m := FromRuns(s.runs);
    AllListedShow(s, db, t, publish);
    FromRunsShow(s.runs, db, t, publish);
    EveryRunListed(s, db, t, publish, m);
    MessagesAgree(s, db, t, publish, m);
    FillChangesNothing(m, s.messages);
  }
}
