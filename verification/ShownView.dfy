/** What the browser's fold shows of a run, said from the events of its log alone (App.tsx). */
module ShownView {
  import opened Common
  import opened RunRecords
  import opened EventView
  import opened Projection

  /** What an event can say about a call or a source; an event that lacks a field says nothing. */
  datatype Kind = AboutTool | FinishesTool | DescribesInput | AboutSource

  predicate NamesCall(p: Payload, id: string) {
    && (p.ToolStarted? || (p.ToolFinished? && p.result != ""))
    && p.callId == id && id != "" && p.name != "" && p.title != ""
  }

  predicate Says(kind: Kind, p: Payload, id: string) {
    match kind
    case AboutTool => NamesCall(p, id)
    case FinishesTool => NamesCall(p, id) && p.ToolFinished?
    case DescribesInput => NamesCall(p, id) && p.ToolStarted? && p.summary.Some? && p.summary.value != ""
    case AboutSource => p.SourceAdded? && p.sourceId == id && id != "" && p.title != "" && p.description != ""
  }

  ghost predicate FirstOf(events: seq<EventRow>, kind: Kind, id: string, i: nat) {
    i < |events| && Says(kind, events[i].payload, id) && forall j :: 0 <= j < i ==> !Says(kind, events[j].payload, id)
  }

  ghost predicate LastOf(events: seq<EventRow>, kind: Kind, id: string, i: nat) {
    i < |events| && Says(kind, events[i].payload, id)
    && forall j :: i < j < |events| ==> !Says(kind, events[j].payload, id)
  }

  ghost predicate NoneOf(events: seq<EventRow>, kind: Kind, id: string) {
    forall j :: 0 <= j < |events| ==> !Says(kind, events[j].payload, id)
  }

  ghost predicate Precedes(events: seq<EventRow>, kind: Kind, id: string, other: string) {
    exists a: nat, b: nat :: FirstOf(events, kind, id, a) && FirstOf(events, kind, other, b) && a < b
  }

  /** The ids the events speak of, each once, in order of first appearance. */
  ghost predicate InFirstOrder(events: seq<EventRow>, kind: Kind, ids: seq<string>) {
    && (forall id :: id in ids <==> !NoneOf(events, kind, id))
    && (forall j, k :: 0 <= j < k < |ids| ==> Precedes(events, kind, ids[j], ids[k]))
  }

  /** A tool shows the name, title and state of its last event, its last result and its last described input. */
  ghost predicate ToolTold(events: seq<EventRow>, t: Tool) {
    && (exists i: nat :: LastOf(events, AboutTool, t.id, i) && events[i].payload.name == t.name
                         && events[i].payload.title == t.title && (t.completed <==> events[i].payload.ToolFinished?))
    && (match t.output
        case None => NoneOf(events, FinishesTool, t.id)
        case Some(text) => exists i: nat :: LastOf(events, FinishesTool, t.id, i) && events[i].payload.result == text)
    && (match t.input
        case None => NoneOf(events, DescribesInput, t.id)
        case Some(text) => exists i: nat :: LastOf(events, DescribesInput, t.id, i) && events[i].payload.summary == Some(text))
  }

  ghost predicate SourceTold(events: seq<EventRow>, s: Source) {
    exists i: nat :: LastOf(events, AboutSource, s.id, i)
                     && events[i].payload.title == s.title && events[i].payload.description == s.description
  }

  function ToolIds(tools: seq<Tool>): (r: seq<string>)
    ensures |r| == |tools| && forall i :: 0 <= i < |r| ==> r[i] == tools[i].id
  {
    seq(|tools|, i requires 0 <= i < |tools| => tools[i].id)
  }

  function IdsOf(sources: seq<Source>): (r: seq<string>)
    ensures |r| == |sources| && forall i :: 0 <= i < |r| ==> r[i] == sources[i].id
  {
    seq(|sources|, i requires 0 <= i < |sources| => sources[i].id)
  }

  ghost predicate ToolsTold(events: seq<EventRow>, tools: seq<Tool>) {
    InFirstOrder(events, AboutTool, ToolIds(tools)) && forall k :: 0 <= k < |tools| ==> ToolTold(events, tools[k])
  }

  ghost predicate SourcesTold(events: seq<EventRow>, sources: seq<Source>) {
    InFirstOrder(events, AboutSource, IdsOf(sources)) && forall k :: 0 <= k < |sources| ==> SourceTold(events, sources[k])
  }

  // ----- one more event -----

  /** What an event that says nothing of a call leaves as it was. */
  lemma OtherEvent(events: seq<EventRow>, e: EventRow, kind: Kind, id: string)
    requires !Says(kind, e.payload, id)
    ensures NoneOf(events + [e], kind, id) <==> NoneOf(events, kind, id)
    ensures forall i: nat :: LastOf(events, kind, id, i) ==> LastOf(events + [e], kind, id, i) && (events + [e])[i] == events[i]
  {
    if NoneOf(events + [e], kind, id) {
      forall j | 0 <= j < |events| ensures !Says(kind, events[j].payload, id) {
        assert (events + [e])[j] == events[j];
      }
    }
  }

  lemma OwnEvent(events: seq<EventRow>, e: EventRow, kind: Kind, id: string)
    requires Says(kind, e.payload, id)
    ensures LastOf(events + [e], kind, id, |events|) && !NoneOf(events + [e], kind, id)
  {
    assert (events + [e])[|events|] == e;
  }

  lemma FirstStays(events: seq<EventRow>, e: EventRow, kind: Kind, id: string, other: string)
    requires Precedes(events, kind, id, other)
    ensures Precedes(events + [e], kind, id, other)
  {
    var a: nat, b: nat :| FirstOf(events, kind, id, a) && FirstOf(events, kind, other, b) && a < b;
    assert FirstOf(events + [e], kind, id, a) && FirstOf(events + [e], kind, other, b);
  }

  lemma {:induction false} FirstExists(events: seq<EventRow>, kind: Kind, id: string) returns (i: nat)
    requires !NoneOf(events, kind, id)
    ensures FirstOf(events, kind, id, i)
  {
    var front := events[..|events| - 1];
    if NoneOf(front, kind, id) {
      i := |events| - 1;
      forall j | 0 <= j < i ensures !Says(kind, events[j].payload, id) { assert front[j] == events[j]; }
    } else {
      i := FirstExists(front, kind, id);
      forall j | 0 <= j < i ensures !Says(kind, events[j].payload, id) { assert front[j] == events[j]; }
    }
  }

  /** Known ids stay where they are; a new one comes last. */
  lemma OrderGrows(events: seq<EventRow>, e: EventRow, kind: Kind, ids: seq<string>, more: seq<string>)
    requires InFirstOrder(events, kind, ids)
    requires ids <= more && |more| <= |ids| + 1
    requires forall id :: Says(kind, e.payload, id) ==> id in more
    requires |more| > |ids| ==> Says(kind, e.payload, more[|ids|]) && more[|ids|] !in ids
    ensures InFirstOrder(events + [e], kind, more)
  {
    forall id ensures id in more <==> !NoneOf(events + [e], kind, id) {
      if Says(kind, e.payload, id) { OwnEvent(events, e, kind, id); } else {
        OtherEvent(events, e, kind, id);
        MemberOfMore(ids, more, id);
      }
    }
    forall j, k | 0 <= j < k < |more| ensures Precedes(events + [e], kind, more[j], more[k]) {
      if k < |ids| {
        FirstStays(events, e, kind, ids[j], ids[k]);
      } else {
        NewComesLast(events, e, kind, ids[j], more[k]);
      }
    }
  }

  lemma MemberOfMore(ids: seq<string>, more: seq<string>, id: string)
    requires ids <= more && |more| <= |ids| + 1
    ensures id in more <==> id in ids || (|more| > |ids| && more[|ids|] == id)
  {
    if id in ids {
      var k :| 0 <= k < |ids| && ids[k] == id;
      assert more[k] == id;
    }
  }

  lemma NewComesLast(events: seq<EventRow>, e: EventRow, kind: Kind, id: string, added: string)
    requires !NoneOf(events, kind, id) && NoneOf(events, kind, added) && Says(kind, e.payload, added)
    ensures Precedes(events + [e], kind, id, added)
  {
    var a := FirstExists(events, kind, id);
    assert FirstOf(events + [e], kind, id, a);
    assert FirstOf(events + [e], kind, added, |events|);
  }

  lemma ToolStays(events: seq<EventRow>, e: EventRow, t: Tool)
    requires ToolTold(events, t) && !Says(AboutTool, e.payload, t.id)
    ensures ToolTold(events + [e], t)
  {
    OtherEvent(events, e, AboutTool, t.id);
    OtherEvent(events, e, FinishesTool, t.id);
    OtherEvent(events, e, DescribesInput, t.id);
  }

  lemma IdsDiffer(events: seq<EventRow>, kind: Kind, ids: seq<string>, j: nat, k: nat)
    requires InFirstOrder(events, kind, ids) && j < |ids| && k < |ids| && j != k
    ensures ids[j] != ids[k]
  {
    if j < k { assert Precedes(events, kind, ids[j], ids[k]); } else { assert Precedes(events, kind, ids[k], ids[j]); }
  }

  /** The tool an event leaves: its own name, title and state, and what it does not say is kept. */
  ghost predicate ToolAfter(p: Payload, known: Option<Tool>, now: Tool) {
    && NamesCall(p, now.id) && now.name == p.name && now.title == p.title && (now.completed <==> p.ToolFinished?)
    && (known.Some? ==> known.value.id == now.id)
    && now.output == (if p.ToolFinished? then Some(p.result) else if known.Some? then known.value.output else None)
    && now.input == (if Says(DescribesInput, p, now.id) then p.summary else if known.Some? then known.value.input else None)
  }

  lemma ToolMoves(events: seq<EventRow>, e: EventRow, known: Option<Tool>, now: Tool)
    requires ToolAfter(e.payload, known, now)
    requires if known.Some? then ToolTold(events, known.value) else NoneOf(events, AboutTool, now.id)
    ensures ToolTold(events + [e], now)
  {
    OwnEvent(events, e, AboutTool, now.id);
    assert (events + [e])[|events|] == e;
    OutputMoves(events, e, known, now);
    InputMoves(events, e, known, now);
  }

  lemma OutputMoves(events: seq<EventRow>, e: EventRow, known: Option<Tool>, now: Tool)
    requires ToolAfter(e.payload, known, now)
    requires if known.Some? then ToolTold(events, known.value) else NoneOf(events, AboutTool, now.id)
    ensures match now.output
      case None => NoneOf(events + [e], FinishesTool, now.id)
      case Some(text) => exists i: nat :: LastOf(events + [e], FinishesTool, now.id, i) && (events + [e])[i].payload.result == text
  {
    if e.payload.ToolFinished? {
      OwnEvent(events, e, FinishesTool, now.id);
      assert (events + [e])[|events|] == e;
    } else {
      OtherEvent(events, e, FinishesTool, now.id);
    }
  }

  lemma InputMoves(events: seq<EventRow>, e: EventRow, known: Option<Tool>, now: Tool)
    requires ToolAfter(e.payload, known, now)
    requires if known.Some? then ToolTold(events, known.value) else NoneOf(events, AboutTool, now.id)
    ensures match now.input
      case None => NoneOf(events + [e], DescribesInput, now.id)
      case Some(text) => exists i: nat :: LastOf(events + [e], DescribesInput, now.id, i) && (events + [e])[i].payload.summary == Some(text)
  {
    if Says(DescribesInput, e.payload, now.id) {
      OwnEvent(events, e, DescribesInput, now.id);
      assert (events + [e])[|events|] == e;
    } else {
      OtherEvent(events, e, DescribesInput, now.id);
    }
  }

  lemma ToolsAppend(events: seq<EventRow>, e: EventRow, tools: seq<Tool>, now: Tool)
    requires ToolsTold(events, tools) && ToolAfter(e.payload, None, now) && now.id !in ToolIds(tools)
    ensures ToolsTold(events + [e], tools + [now])
  {
    var more := tools + [now];
    ToolMoves(events, e, None, now);
    assert ToolIds(more)[|tools|] == now.id;
    OrderGrows(events, e, AboutTool, ToolIds(tools), ToolIds(more));
    forall k | 0 <= k < |more| ensures ToolTold(events + [e], more[k]) {
      if k < |tools| {
        assert ToolIds(tools)[k] == tools[k].id;
        ToolStays(events, e, tools[k]);
      }
    }
  }

  lemma ToolsUpdate(events: seq<EventRow>, e: EventRow, tools: seq<Tool>, at: nat, now: Tool)
    requires ToolsTold(events, tools) && at < |tools| && ToolAfter(e.payload, Some(tools[at]), now)
    ensures ToolsTold(events + [e], tools[at := now])
  {
    var more := tools[at := now];
    ToolMoves(events, e, Some(tools[at]), now);
    assert ToolIds(more) == ToolIds(tools) && ToolIds(more)[at] == now.id;
    OrderGrows(events, e, AboutTool, ToolIds(tools), ToolIds(more));
    forall k | 0 <= k < |more| ensures ToolTold(events + [e], more[k]) {
      if k != at {
        IdsDiffer(events, AboutTool, ToolIds(tools), k, at);
        ToolStays(events, e, tools[k]);
      }
    }
  }

  lemma ToolsSame(events: seq<EventRow>, e: EventRow, tools: seq<Tool>)
    requires ToolsTold(events, tools) && forall id :: !NamesCall(e.payload, id)
    ensures ToolsTold(events + [e], tools)
  {
    OrderGrows(events, e, AboutTool, ToolIds(tools), ToolIds(tools));
    forall k | 0 <= k < |tools| ensures ToolTold(events + [e], tools[k]) { ToolStays(events, e, tools[k]); }
  }

  lemma ToolsStep(events: seq<EventRow>, e: EventRow, tools: seq<Tool>)
    requires ToolsTold(events, tools)
    ensures ToolsTold(events + [e], ViewTool(tools, e.payload))
  {
    var p, more := e.payload, ViewTool(tools, e.payload);
    if (p.ToolStarted? || p.ToolFinished?) && NamesCall(p, p.callId) {
      var at := FindTool(tools, p.callId);
      if at.Some? {
        assert more == tools[at.value := more[at.value]];
        ToolsUpdate(events, e, tools, at.value, more[at.value]);
      } else {
        assert more == tools + [more[|tools|]];
        ToolsAppend(events, e, tools, more[|tools|]);
      }
    } else {
      assert more == tools;
      ToolsSame(events, e, tools);
    }
  }

  // ----- sources -----

  lemma SourceStays(events: seq<EventRow>, e: EventRow, s: Source)
    requires SourceTold(events, s) && !Says(AboutSource, e.payload, s.id)
    ensures SourceTold(events + [e], s)
  {
    OtherEvent(events, e, AboutSource, s.id);
  }

  lemma SourcesStep(events: seq<EventRow>, e: EventRow, sources: seq<Source>)
    requires SourcesTold(events, sources)
    ensures SourcesTold(events + [e], ViewSources(sources, e.payload))
  {
    var p, more := e.payload, ViewSources(sources, e.payload);
    if p.SourceAdded? && Says(AboutSource, p, p.sourceId) {
      var at := FindSource(sources, p.sourceId);
      var now := Source(p.sourceId, p.title, p.description);
      OwnEvent(events, e, AboutSource, now.id);
      assert (events + [e])[|events|] == e && SourceTold(events + [e], now);
      var place := if at.Some? then at.value else |sources|;
      assert more == (if at.Some? then sources[place := now] else sources + [now]);
      assert IdsOf(more)[place] == now.id;
      OrderGrows(events, e, AboutSource, IdsOf(sources), IdsOf(more));
      forall k | 0 <= k < |more| ensures SourceTold(events + [e], more[k]) {
        if k != place {
          if at.Some? { IdsDiffer(events, AboutSource, IdsOf(sources), k, place); }
          SourceStays(events, e, sources[k]);
        }
      }
    } else {
      assert more == sources;
      OrderGrows(events, e, AboutSource, IdsOf(sources), IdsOf(sources));
      forall k | 0 <= k < |sources| ensures SourceTold(events + [e], sources[k]) { SourceStays(events, e, sources[k]); }
    }
  }

  // ----- text -----

  predicate ReplacesText(p: Payload) { p.MessageCompleted? || p.RunFailed? }

  /** The text is what the last answer or failure left, followed by the deltas since. */
  ghost predicate TextTold(events: seq<EventRow>, text: string) {
    if HasReplacement(events) then exists i: nat :: TextFrom(events, i, text) else text == DeltaText(events)
  }

  ghost predicate TextFrom(events: seq<EventRow>, i: nat, text: string) {
    && i < |events| && ReplacesText(events[i].payload)
    && (forall j :: i < j < |events| ==> !ReplacesText(events[j].payload))
    && text == (if events[i].payload.MessageCompleted? then events[i].payload.content else "") + DeltaText(events[i + 1..])
  }

  predicate HasReplacement(events: seq<EventRow>) { exists i :: 0 <= i < |events| && ReplacesText(events[i].payload) }

  lemma TextReplaced(events: seq<EventRow>, e: EventRow, text: string)
    requires ReplacesText(e.payload) && text == if e.payload.MessageCompleted? then e.payload.content else ""
    ensures TextTold(events + [e], text)
  {
    var more := events + [e];
    assert more[|events|] == e && more[|events| + 1..] == [];
    assert TextFrom(more, |events|, text);
  }

  lemma TextContinues(events: seq<EventRow>, e: EventRow, i: nat, text: string)
    requires TextFrom(events, i, text) && !ReplacesText(e.payload)
    ensures TextFrom(events + [e], i, text + if e.payload.MessageDelta? then e.payload.delta else "")
  {
    var more := events + [e];
    assert more[i + 1..] == events[i + 1..] + [e];
    DeltaTextAppend(events[i + 1..], e);
  }

  lemma ReplacementAppend(events: seq<EventRow>, e: EventRow)
    ensures HasReplacement(events + [e]) <==> HasReplacement(events) || ReplacesText(e.payload)
  {
    if HasReplacement(events) {
      var i :| 0 <= i < |events| && ReplacesText(events[i].payload);
      assert (events + [e])[i] == events[i];
    }
    assert (events + [e])[|events|] == e;
  }

  lemma TextStep(events: seq<EventRow>, e: EventRow, text: string)
    requires TextTold(events, text)
    ensures TextTold(events + [e], ViewText(text, e.payload))
  {
    ReplacementAppend(events, e);
    if ReplacesText(e.payload) {
      TextReplaced(events, e, ViewText(text, e.payload));
    } else if HasReplacement(events) {
      var i: nat :| TextFrom(events, i, text);
      TextContinues(events, e, i, text);
      assert ViewText(text, e.payload) == text + if e.payload.MessageDelta? then e.payload.delta else "";
    } else {
      DeltaTextAppend(events, e);
    }
  }

  // ----- the whole view -----

  predicate KnownFailure(p: Payload) { p.RunFailed? && KnownFailureCode(PublicCode(p.code)) }

  /** The failure code is that of the last failure the page knows. */
  ghost predicate FailureTold(events: seq<EventRow>, failure: Option<string>) {
    match failure
    case None => forall i :: 0 <= i < |events| ==> !KnownFailure(events[i].payload)
    case Some(code) =>
      exists i: nat :: i < |events| && KnownFailure(events[i].payload) && PublicCode(events[i].payload.code) == code
                       && forall j :: i < j < |events| ==> !KnownFailure(events[j].payload)
  }

  lemma FailureStep(events: seq<EventRow>, e: EventRow, failure: Option<string>)
    requires FailureTold(events, failure)
    ensures FailureTold(events + [e], ViewFailure(failure, e.payload))
  {
    var more := events + [e];
    assert more[|events|] == e;
    if !KnownFailure(e.payload) {
      if failure.Some? {
        var i: nat :| i < |events| && KnownFailure(events[i].payload) && PublicCode(events[i].payload.code) == failure.value
          && forall j :: i < j < |events| ==> !KnownFailure(events[j].payload);
        assert more[i] == events[i];
      }
    }
  }

  /** What a view says is what the events of the log say. */
  ghost predicate ViewTold(events: seq<EventRow>, v: View) {
    && ToolsTold(events, v.tools) && SourcesTold(events, v.sources) && TextTold(events, v.text)
    && FailureTold(events, v.failure) && v.status == Replay(events)
    && (events != [] ==> v.lastSeq == events[|events| - 1].seqNo)
  }

  lemma ViewStep(events: seq<EventRow>, e: EventRow, v: View)
    requires ViewTold(events, v)
    ensures ViewTold(events + [e], StepView(v, e))
  {
    ToolsStep(events, e, v.tools);
    SourcesStep(events, e, v.sources);
    TextStep(events, e, v.text);
    FailureStep(events, e, v.failure);
    ReplayAppend(events, e);
  }

  /** Everything the fold shows, from the events of the log alone: text, tools, sources, failure, status and number. */
  lemma {:induction false} FoldTellsTheLog(events: seq<EventRow>)
    ensures ViewTold(events, Fold(events))
  {
    if events != [] {
      var front, e := events[..|events| - 1], events[|events| - 1];
      FoldTellsTheLog(front);
      ViewStep(front, e, Fold(front));
      assert front + [e] == events;
    }
  }

  /** An event of one call changes no other tool, and none changes its place. */
  lemma OtherToolsStay(events: seq<EventRow>, e: EventRow, k: nat)
    requires k < |Fold(events).tools|
    ensures k < |Fold(events + [e]).tools| && Fold(events + [e]).tools[k].id == Fold(events).tools[k].id
    ensures !Says(AboutTool, e.payload, Fold(events).tools[k].id) ==>
      Fold(events + [e]).tools[k] == Fold(events).tools[k]
  {
    FoldAppend(events, e);
  }
}
