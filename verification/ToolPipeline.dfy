/**
  Concurrent tool calls feeding one FIFO queue whose consumer validates, appends and
  confirms each event (`execute_tool_call`, the runner's queue and the worker's loop).
*/
module ToolPipeline {
  import opened Common
  import opened RunRecords
  import opened PolicyLedger
  import opened Budgets

  /** Where one tool-call coroutine stands; `pending` are the events it still has to put on the queue. */
  datatype Phase = Emitting(pending: seq<Payload>, finished: bool) | Handling | Done | Broken

  /** `owner` is history: the call whose finish first announced a source. */
  datatype Pipe = Pipe(
    l: Ledger, phase: map<string, Phase>, owner: map<string, string>,
    queue: seq<Payload>, inflight: Option<Payload>, log: seq<Payload>, rejected: bool)

  const EMPTY_PIPE := Pipe(EMPTY_LEDGER, map[], map[], [], None, [], false)

  datatype PipeStep =
    | Model(op: LedgerOp)
    | Begin(id: string, tool: string, arguments: string, permitted: bool, now: int)
    | Emit(id: string)
    | HandlerFails(id: string)
    | HandlerReturns(id: string, tool: string, sound: bool, outcome: Option<ToolOutcome>, now: int)
    | EmitDelta(text: string)
    | Take
    | Confirm

  function NewSources(before: Ledger, after: Ledger, id: string): map<string, string> {
    map s | s in after.sources && s !in before.sources :: id
  }

  /** One step of one coroutine, or of the consumer; a step that is not enabled changes nothing. */
  function Advance(limits: PolicyLimits, reg: Registry, s: Pipe, step: PipeStep): Pipe {
    match step
    case Model(op) =>
      if op.ModelCall? || op.ModelResponse? || op.Finalize? then s.(l := Perform(limits, reg, s.l, op).ledger) else s
    case Begin(id, tool, arguments, permitted, now) =>
      var r := BeginToolCall(limits, reg, s.l, id, tool, arguments, permitted, now);
      if r.violation.Some? then s
      else s.(l := r.ledger, phase := s.phase[id := Emitting([r.ledger.started[id]], false)])
    case Emit(id) =>
      if id in s.phase && s.phase[id].Emitting? && s.phase[id].pending != [] then
        var p := s.phase[id].pending;
        var rest := if |p| > 1 then Emitting(p[1..], s.phase[id].finished)
                    else if s.phase[id].finished then Done else Handling;
        s.(queue := s.queue + [p[0]], phase := s.phase[id := rest])
      else s
    case HandlerFails(id) =>
      if id in s.phase && s.phase[id].Handling? then s.(phase := s.phase[id := Broken]) else s
    case HandlerReturns(id, tool, sound, outcome, now) =>
      if id in s.phase && s.phase[id].Handling? then
        var f := FinishToolCall(limits, reg, s.l, id, tool, sound, outcome, now);
        if f.violation.Some? then s.(l := f.ledger, phase := s.phase[id := Broken])
        else s.(l := f.ledger, phase := s.phase[id := Emitting(f.events, true)], owner := s.owner + NewSources(s.l, f.ledger, id))
      else s
    case EmitDelta(text) => s.(queue := s.queue + [MessageDelta(text)])
    case Take =>
      if s.inflight.Some? || s.queue == [] then s
      else if ValidateEvent(s.l, s.queue[0]).Some? then s.(rejected := true)
      else s.(inflight := Some(s.queue[0]), queue := s.queue[1..])
    case Confirm =>
      if s.inflight.None? then s
      else
        var r := AcceptEvent(s.l, s.inflight.value);
        s.(l := r.ledger, log := s.log + [s.inflight.value], inflight := None, rejected := s.rejected || r.violation.Some?)
  }

  function Run(limits: PolicyLimits, reg: Registry, steps: seq<PipeStep>): Pipe {
    if steps == [] then EMPTY_PIPE
    else Advance(limits, reg, Run(limits, reg, steps[..|steps| - 1]), steps[|steps| - 1])
  }

  /** Everything ever put on the queue, in queue order: persisted, being persisted, still queued. */
  function Emitted(s: Pipe): seq<Payload> {
    s.log + (if s.inflight.Some? then [s.inflight.value] else []) + s.queue
  }

  // ----- the invariant -----

  /** The part of the ledger the tool lifecycle reads and writes. */
  datatype Tools = Tools(
    started: map<string, Payload>, finished: map<string, Payload>, sources: map<string, SourceEntry>,
    generated: seq<string>, pStarted: set<string>, pFinished: set<string>, pSources: set<string>)

  function ToolsOf(l: Ledger): Tools {
    Tools(l.started, l.finished, l.sources, l.generated, l.persistedStarted, l.persistedFinished, l.persistedSources)
  }

  ghost predicate Known(t: Tools, p: Payload) {
    match p
    case MessageDelta(_) => true
    case ToolStarted(id, _, _, _) => id in t.started && t.started[id] == p
    case ToolFinished(id, _, _, _) => id in t.finished && t.finished[id] == p
    case SourceAdded(x, _, _) => x in t.sources && t.sources[x].payload == p
    case _ => false
  }

  ghost predicate AllKnown(t: Tools, e: seq<Payload>) {
    forall p :: p in e ==> Known(t, p)
  }

  ghost predicate NoRepeats(e: seq<Payload>) {
    forall i, j :: 0 <= i < j < |e| && e[i] == e[j] ==> e[i].MessageDelta?
  }

  /** A finish follows its start; a source follows the finish of the call that announced it. */
  ghost predicate InOrder(t: Tools, owner: map<string, string>, e: seq<Payload>, j: nat)
    requires j < |e|
  {
    match e[j]
    case ToolFinished(id, _, _, _) => id in t.started && t.started[id] in e[..j]
    case SourceAdded(x, _, _) => x in owner && owner[x] in t.finished && t.finished[owner[x]] in e[..j]
    case _ => true
  }

  ghost predicate AllInOrder(t: Tools, owner: map<string, string>, e: seq<Payload>) {
    forall j :: 0 <= j < |e| ==> InOrder(t, owner, e, j)
  }

  /** An announced source event that call `c` has not yet put on the queue. */
  ghost predicate OwnSource(t: Tools, owner: map<string, string>, e: seq<Payload>, c: string, p: Payload) {
    p.SourceAdded? && Known(t, p) && p.sourceId in owner && owner[p.sourceId] == c && p !in e
  }

  ghost predicate OwnSources(t: Tools, owner: map<string, string>, e: seq<Payload>, c: string, q: seq<Payload>) {
    Distinct(q) && forall p :: p in q ==> OwnSource(t, owner, e, c, p)
  }

  ghost predicate CallInv(t: Tools, phase: Phase, owner: map<string, string>, e: seq<Payload>, c: string) {
    && c in t.started && t.started[c].ToolStarted? && t.started[c].callId == c
    && (c in t.finished <==> phase.Done? || (phase.Emitting? && phase.finished))
    && (c in t.finished ==> t.finished[c].ToolFinished? && t.finished[c].callId == c)
    && match phase
       case Emitting(p, false) => p == [t.started[c]] && t.started[c] !in e
       case Emitting(p, true) =>
         && t.started[c] in e && p != []
         && if t.finished[c] in e then OwnSources(t, owner, e, c, p)
            else p[0] == t.finished[c] && OwnSources(t, owner, e, c, p[1..])
       case Done => t.started[c] in e && t.finished[c] in e
       case _ => t.started[c] in e
  }

  ghost predicate AllCalls(t: Tools, phase: map<string, Phase>, owner: map<string, string>, e: seq<Payload>) {
    forall c :: c in phase ==> CallInv(t, phase[c], owner, e, c)
  }

  ghost predicate SourceInv(t: Tools, phase: map<string, Phase>, owner: map<string, string>, e: seq<Payload>, x: string)
    requires x in t.sources
  {
    var p := t.sources[x].payload;
    && p.SourceAdded? && p.sourceId == x
    && x in owner && owner[x] in phase && owner[x] in t.sources[x].calls
    && (p in e || (phase[owner[x]].Emitting? && p in phase[owner[x]].pending))
  }

  ghost predicate AllSources(t: Tools, phase: map<string, Phase>, owner: map<string, string>, e: seq<Payload>) {
    forall x :: x in t.sources ==> SourceInv(t, phase, owner, e, x)
  }

  ghost predicate PersistedInv(t: Tools, log: seq<Payload>) {
    && (forall c :: c in t.started ==> (c in t.pStarted <==> t.started[c] in log))
    && (forall c :: c in t.finished ==> (c in t.pFinished <==> t.finished[c] in log))
    && (forall x :: x in t.sources ==> (x in t.pSources <==> t.sources[x].payload in log))
    && t.pStarted <= t.started.Keys && t.pFinished <= t.finished.Keys && t.pSources <= t.sources.Keys
  }

  ghost predicate Domains(t: Tools, phase: map<string, Phase>, owner: map<string, string>) {
    && phase.Keys == t.started.Keys && t.finished.Keys <= phase.Keys && owner.Keys == t.sources.Keys
    && (forall x :: x in t.generated <==> x in t.sources)
  }

  ghost predicate ViewInv(t: Tools, phase: map<string, Phase>, owner: map<string, string>, e: seq<Payload>,
                          log: seq<Payload>) {
    && Domains(t, phase, owner) && AllKnown(t, e) && NoRepeats(e) && AllInOrder(t, owner, e)
    && AllCalls(t, phase, owner, e) && AllSources(t, phase, owner, e) && PersistedInv(t, log) && log <= e
  }

  ghost predicate PipeInv(s: Pipe) {
    !s.rejected && ViewInv(ToolsOf(s.l), s.phase, s.owner, Emitted(s), s.log)
  }

  // ----- what each step does to the ledger -----

  lemma {:induction false} TextsLeaveTools(l: Ledger, texts: seq<string>)
    ensures ToolsOf(RecordTexts(l, texts)) == ToolsOf(l)
    decreases |texts|
  {
    if texts != [] { TextsLeaveTools(if texts[0] == "" then l else RecordProgress(l, AnswerText(texts[0])), texts[1..]); }
  }

  lemma ModelLeavesTools(limits: PolicyLimits, reg: Registry, l: Ledger, op: LedgerOp)
    requires op.ModelCall? || op.ModelResponse? || op.Finalize?
    ensures ToolsOf(Perform(limits, reg, l, op).ledger) == ToolsOf(l)
  {
    if op.ModelResponse? { TextsLeaveTools(l, op.texts); }
  }

  ghost predicate SourceKept(t: Tools, r: Tools, x: string)
    requires x in t.sources
  {
    x in r.sources && r.sources[x].payload == t.sources[x].payload && t.sources[x].calls <= r.sources[x].calls
  }

  ghost predicate SourceNew(t: Tools, r: Tools, id: string, events: seq<Payload>, x: string)
    requires x in r.sources
  {
    r.sources[x].payload in events && id in r.sources[x].calls
    && r.sources[x].payload.SourceAdded? && r.sources[x].payload.sourceId == x
  }

  ghost predicate EventNew(t: Tools, r: Tools, p: Payload) {
    p.SourceAdded? && p.sourceId !in t.sources && p.sourceId in r.sources && r.sources[p.sourceId].payload == p
  }

  /** Adding sources: new ids get their one event, known ids only gain a contributing call. */
  ghost predicate SourcesAdded(t: Tools, id: string, r: Tools, events: seq<Payload>) {
    && r == t.(sources := r.sources, generated := r.generated)
    && (forall x :: x in t.sources ==> SourceKept(t, r, x))
    && (forall x :: x in r.sources && x !in t.sources ==> SourceNew(t, r, id, events, x))
    && (forall p :: p in events ==> EventNew(t, r, p))
    && Distinct(events)
    && (forall x :: x in r.generated <==> x in t.generated || (x in r.sources && x !in t.sources))
  }

  lemma SourcesAddedOne(t: Tools, id: string, x: ToolSource, mid: Tools, r: Tools, rest: seq<Payload>)
    requires x.id !in t.sources
    requires mid == t.(sources := t.sources[x.id := SourceEntry({id}, SourcePayload(x))], generated := t.generated + [x.id])
    requires SourcesAdded(mid, id, r, rest)
    ensures SourcesAdded(t, id, r, [SourcePayload(x)] + rest)
  {
    var events := [SourcePayload(x)] + rest;
    assert SourceKept(mid, r, x.id);
    forall y | y in t.sources ensures SourceKept(t, r, y) { assert SourceKept(mid, r, y); }
    forall y | y in r.sources && y !in t.sources ensures SourceNew(t, r, id, events, y) {
      if y != x.id { assert SourceNew(mid, r, id, rest, y); } else { assert events[0] == SourcePayload(x); }
    }
    forall p | p in events ensures EventNew(t, r, p) { if p != SourcePayload(x) { assert EventNew(mid, r, p); } }
    forall p | p in rest ensures p != SourcePayload(x) { assert EventNew(mid, r, p); }
    DistinctCons(SourcePayload(x), rest);
  }

  lemma {:induction false} AddSourcesFacts(l: Ledger, id: string, sources: seq<ToolSource>)
    ensures SourcesAdded(ToolsOf(l), id, ToolsOf(AddSources(l, id, sources).0), AddSources(l, id, sources).1)
    decreases |sources|
  {
    if sources != [] {
      var x := sources[0];
      if x.id in l.sources {
        var mid := l.(sources := l.sources[x.id := l.sources[x.id].(calls := l.sources[x.id].calls + {id})]);
        AddSourcesFacts(mid, id, sources[1..]);
        var r, events := ToolsOf(AddSources(l, id, sources).0), AddSources(l, id, sources).1;
        forall y | y in l.sources ensures SourceKept(ToolsOf(l), r, y) { assert SourceKept(ToolsOf(mid), r, y); }
        forall y | y in r.sources && y !in l.sources ensures SourceNew(ToolsOf(l), r, id, events, y) { assert SourceNew(ToolsOf(mid), r, id, events, y); }
        forall p | p in events ensures EventNew(ToolsOf(l), r, p) { assert EventNew(ToolsOf(mid), r, p); }
      } else {
        var mid := RecordProgress(l.(sources := l.sources[x.id := SourceEntry({id}, SourcePayload(x))],
                                     generated := l.generated + [x.id]), SourceSeen(x.id));
        AddSourcesFacts(mid, id, sources[1..]);
        SourcesAddedOne(ToolsOf(l), id, x, ToolsOf(mid), ToolsOf(AddSources(mid, id, sources[1..]).0), AddSources(mid, id, sources[1..]).1);
      }
    }
  }

  lemma FinishFacts(limits: PolicyLimits, reg: Registry, l: Ledger, id: string, tool: string, sound: bool,
                    outcome: Option<ToolOutcome>, now: int)
    requires FinishToolCall(limits, reg, l, id, tool, sound, outcome, now).violation.None?
    ensures var f := FinishToolCall(limits, reg, l, id, tool, sound, outcome, now);
      && id !in l.finished
      && |f.events| >= 1 && f.events[0].ToolFinished? && f.events[0].callId == id
      && SourcesAdded(ToolsOf(l).(finished := l.finished[id := f.events[0]]), id, ToolsOf(f.ledger), f.events[1..])
  {
    var o := outcome.value;
    var done := ToolFinished(id, tool, (reg.title)(tool), o.result);
    var closed := RecordProgress(l.(finished := l.finished[id := done], succeeded := l.succeeded + 1), ToolFact(o.fact));
    AddSourcesFacts(closed, id, o.sources);
    var f := FinishToolCall(limits, reg, l, id, tool, sound, outcome, now);
    assert f.events[1..] == AddSources(closed, id, o.sources).1;
    assert ToolsOf(closed) == ToolsOf(l).(finished := l.finished[id := f.events[0]]);
  }

  // ----- preservation, one view change at a time -----

  lemma OrderAppend(t: Tools, owner: map<string, string>, e: seq<Payload>, p: Payload)
    requires AllInOrder(t, owner, e) && InOrder(t, owner, e + [p], |e|)
    ensures AllInOrder(t, owner, e + [p])
  {
    var more := e + [p];
    forall j | 0 <= j < |more| ensures InOrder(t, owner, more, j) {
      if j < |e| {
        assert more[..j] == e[..j];
        assert InOrder(t, owner, e, j);
      }
    }
  }

  lemma DeltaKeeps(t: Tools, phase: map<string, Phase>, owner: map<string, string>, e: seq<Payload>, log: seq<Payload>,
                   text: string)
    requires ViewInv(t, phase, owner, e, log)
    ensures ViewInv(t, phase, owner, e + [MessageDelta(text)], log)
  {
    var p := MessageDelta(text);
    OrderAppend(t, owner, e, p);
    forall c | c in phase ensures CallInv(t, phase[c], owner, e + [p], c) {
      assert CallInv(t, phase[c], owner, e, c);
      OwnSourcesAppend(t, phase, owner, e, c, p);
    }
    forall x | x in t.sources ensures SourceInv(t, phase, owner, e + [p], x) { assert SourceInv(t, phase, owner, e, x); }
  }

  /** An event that is not among the pending ones of a call leaves them unemitted. */
  lemma OwnSourcesAppend(t: Tools, phase: map<string, Phase>, owner: map<string, string>, e: seq<Payload>, c: string,
                         p: Payload)
    requires p.SourceAdded? ==> p.sourceId in owner && owner[p.sourceId] != c
    ensures forall q :: OwnSources(t, owner, e, c, q) ==> OwnSources(t, owner, e + [p], c, q)
  {
    forall q | OwnSources(t, owner, e, c, q) ensures OwnSources(t, owner, e + [p], c, q) {
      forall o | o in q ensures OwnSource(t, owner, e + [p], c, o) { assert OwnSource(t, owner, e, c, o); }
    }
  }

  function AfterEmit(phase: Phase): Phase
    requires phase.Emitting? && phase.pending != []
  {
    if |phase.pending| > 1 then Emitting(phase.pending[1..], phase.finished) else if phase.finished then Done else Handling
  }

  lemma EmitOwn(t: Tools, phase: Phase, owner: map<string, string>, e: seq<Payload>, c: string)
    requires CallInv(t, phase, owner, e, c) && phase.Emitting? && phase.pending != []
    ensures var p := phase.pending[0];
      && p !in e && Known(t, p) && !p.MessageDelta?
      && (p.SourceAdded? ==> p.sourceId in owner && owner[p.sourceId] == c && c in t.finished && t.finished[c] in e)
      && (p.ToolFinished? ==> p.callId == c && t.started[c] in e)
      && (p.ToolStarted? ==> p.callId == c)
    ensures CallInv(t, AfterEmit(phase), owner, e + [phase.pending[0]], c)
  {
    var p, rest := phase.pending[0], phase.pending[1..];
    assert phase.pending == [p] + rest;
    assert p in phase.pending;
    if phase.finished {
      if t.finished[c] in e { assert OwnSource(t, owner, e, c, p); }
      forall o | o in rest ensures OwnSource(t, owner, e + [p], c, o) {
        assert OwnSource(t, owner, e, c, o);
        if t.finished[c] in e { var i :| 0 <= i < |rest| && rest[i] == o; assert phase.pending[i + 1] == o; }
      }
    }
  }

  lemma EmitCalls(t: Tools, phase: map<string, Phase>, owner: map<string, string>, e: seq<Payload>, id: string)
    requires AllCalls(t, phase, owner, e) && id in phase && phase[id].Emitting? && phase[id].pending != []
    ensures AllCalls(t, phase[id := AfterEmit(phase[id])], owner, e + [phase[id].pending[0]])
  {
    var p := phase[id].pending[0];
    var after := phase[id := AfterEmit(phase[id])];
    EmitOwn(t, phase[id], owner, e, id);
    forall c | c in after ensures CallInv(t, after[c], owner, e + [p], c) {
      if c != id {
        assert CallInv(t, phase[c], owner, e, c);
        OwnSourcesAppend(t, phase, owner, e, c, p);
      }
    }
  }

  lemma EmitSources(t: Tools, phase: map<string, Phase>, owner: map<string, string>, e: seq<Payload>, id: string)
    requires AllSources(t, phase, owner, e) && id in phase && phase[id].Emitting? && phase[id].pending != []
    ensures AllSources(t, phase[id := AfterEmit(phase[id])], owner, e + [phase[id].pending[0]])
  {
    var p := phase[id].pending[0];
    var after := phase[id := AfterEmit(phase[id])];
    forall x | x in t.sources ensures SourceInv(t, after, owner, e + [p], x) {
      assert SourceInv(t, phase, owner, e, x);
      assert phase[id].pending == [p] + phase[id].pending[1..];
    }
  }

  lemma EmitKeeps(t: Tools, phase: map<string, Phase>, owner: map<string, string>, e: seq<Payload>, log: seq<Payload>,
                  id: string)
    requires ViewInv(t, phase, owner, e, log)
    requires id in phase && phase[id].Emitting? && phase[id].pending != []
    ensures ViewInv(t, phase[id := AfterEmit(phase[id])], owner, e + [phase[id].pending[0]], log)
  {
    var p := phase[id].pending[0];
    EmitOwn(t, phase[id], owner, e, id);
    assert (e + [p])[..|e|] == e;
    OrderAppend(t, owner, e, p);
    EmitCalls(t, phase, owner, e, id);
    EmitSources(t, phase, owner, e, id);
  }

  lemma BeginCalls(t: Tools, phase: map<string, Phase>, owner: map<string, string>, e: seq<Payload>, id: string,
                   p: Payload)
    requires AllCalls(t, phase, owner, e) && id !in t.started && id !in t.finished
    requires p.ToolStarted? && p.callId == id && p !in e
    ensures AllCalls(t.(started := t.started[id := p]), phase[id := Emitting([p], false)], owner, e)
  {
    var more, after := t.(started := t.started[id := p]), phase[id := Emitting([p], false)];
    forall c | c in after ensures CallInv(more, after[c], owner, e, c) {
      if c != id {
        assert CallInv(t, phase[c], owner, e, c);
        forall q | OwnSources(t, owner, e, c, q) ensures OwnSources(more, owner, e, c, q) {
          forall o | o in q ensures OwnSource(more, owner, e, c, o) { assert OwnSource(t, owner, e, c, o); }
        }
      }
    }
  }

  lemma BeginEvents(t: Tools, owner: map<string, string>, e: seq<Payload>, id: string, p: Payload)
    requires AllKnown(t, e) && AllInOrder(t, owner, e) && id !in t.started && p.ToolStarted? && p.callId == id
    ensures AllKnown(t.(started := t.started[id := p]), e)
    ensures AllInOrder(t.(started := t.started[id := p]), owner, e) && p !in e
  {
    var more := t.(started := t.started[id := p]);
    assert p !in e by { assert !Known(t, p); }
    forall q | q in e ensures Known(more, q) { assert Known(t, q); }
    forall j | 0 <= j < |e| ensures InOrder(more, owner, e, j) { assert InOrder(t, owner, e, j); }
  }

  lemma BeginSources(t: Tools, phase: map<string, Phase>, owner: map<string, string>, e: seq<Payload>, id: string,
                     p: Payload)
    requires AllSources(t, phase, owner, e) && id !in t.started && phase.Keys == t.started.Keys
    ensures AllSources(t.(started := t.started[id := p]), phase[id := Emitting([p], false)], owner, e)
  {
    var more, after := t.(started := t.started[id := p]), phase[id := Emitting([p], false)];
    forall x | x in more.sources ensures SourceInv(more, after, owner, e, x) { assert SourceInv(t, phase, owner, e, x); }
  }

  lemma BeginKeeps(t: Tools, phase: map<string, Phase>, owner: map<string, string>, e: seq<Payload>, log: seq<Payload>,
                   id: string, p: Payload)
    requires ViewInv(t, phase, owner, e, log)
    requires id !in t.started && p.ToolStarted? && p.callId == id
    ensures ViewInv(t.(started := t.started[id := p]), phase[id := Emitting([p], false)], owner, e, log)
  {
    BeginEvents(t, owner, e, id, p);
    BeginCalls(t, phase, owner, e, id, p);
    BeginSources(t, phase, owner, e, id, p);
  }

  lemma FailKeeps(t: Tools, phase: map<string, Phase>, owner: map<string, string>, e: seq<Payload>, log: seq<Payload>,
                  id: string)
    requires ViewInv(t, phase, owner, e, log) && id in phase && phase[id].Handling?
    ensures ViewInv(t, phase[id := Broken], owner, e, log)
  {
    var after := phase[id := Broken];
    forall c | c in after ensures CallInv(t, after[c], owner, e, c) { assert CallInv(t, phase[c], owner, e, c); }
    forall x | x in t.sources ensures SourceInv(t, after, owner, e, x) { assert SourceInv(t, phase, owner, e, x); }
  }

  function NewOwners(t: Tools, r: Tools, id: string): map<string, string> {
    map x | x in r.sources && x !in t.sources :: id
  }

  lemma FinishCalls(t: Tools, r: Tools, phase: map<string, Phase>, owner: map<string, string>, e: seq<Payload>,
                    id: string, events: seq<Payload>)
    requires AllCalls(t, phase, owner, e) && AllKnown(t, e) && owner.Keys == t.sources.Keys
    requires id in phase && phase[id].Handling? && id !in t.finished
    requires |events| >= 1 && events[0].ToolFinished? && events[0].callId == id
    requires SourcesAdded(t.(finished := t.finished[id := events[0]]), id, r, events[1..])
    ensures AllCalls(r, phase[id := Emitting(events, true)], owner + NewOwners(t, r, id), e)
  {
    var closed := t.(finished := t.finished[id := events[0]]);
    var after, owners := phase[id := Emitting(events, true)], owner + NewOwners(t, r, id);
    forall c | c in after ensures CallInv(r, after[c], owners, e, c) {
      assert CallInv(t, phase[c], owner, e, c);
      if c == id {
        assert events[0] !in e by { assert !Known(t, events[0]); }
        forall o | o in events[1..] ensures OwnSource(r, owners, e, id, o) {
          assert EventNew(closed, r, o);
          assert o !in e by { assert !Known(t, o); }
        }
      } else {
        forall q | OwnSources(t, owner, e, c, q) ensures OwnSources(r, owners, e, c, q) {
          forall o | o in q ensures OwnSource(r, owners, e, c, o) {
            assert OwnSource(t, owner, e, c, o);
            assert SourceKept(closed, r, o.sourceId);
          }
        }
      }
    }
  }

  lemma FinishSources(t: Tools, r: Tools, phase: map<string, Phase>, owner: map<string, string>, e: seq<Payload>,
                      id: string, events: seq<Payload>)
    requires AllSources(t, phase, owner, e) && owner.Keys == t.sources.Keys
    requires id in phase && phase[id].Handling? && |events| >= 1
    requires SourcesAdded(t.(finished := t.finished[id := events[0]]), id, r, events[1..])
    ensures AllSources(r, phase[id := Emitting(events, true)], owner + NewOwners(t, r, id), e)
  {
    var closed := t.(finished := t.finished[id := events[0]]);
    forall x | x in r.sources ensures SourceInv(r, phase[id := Emitting(events, true)], owner + NewOwners(t, r, id), e, x) {
      if x in t.sources { assert SourceInv(t, phase, owner, e, x) && SourceKept(closed, r, x); }
      else {
        assert SourceNew(closed, r, id, events[1..], x);
        assert r.sources[x].payload in events;
      }
    }
  }

  lemma FinishOrder(t: Tools, r: Tools, owner: map<string, string>, owners: map<string, string>, e: seq<Payload>,
                    id: string, events: seq<Payload>)
    requires AllKnown(t, e) && AllInOrder(t, owner, e) && id !in t.finished && |events| >= 1
    requires SourcesAdded(t.(finished := t.finished[id := events[0]]), id, r, events[1..])
    requires forall x :: x in owner ==> x in owners && owners[x] == owner[x]
    ensures AllKnown(r, e) && AllInOrder(r, owners, e)
  {
    var closed := t.(finished := t.finished[id := events[0]]);
    forall q | q in e ensures Known(r, q) {
      assert Known(t, q);
      if q.SourceAdded? { assert SourceKept(closed, r, q.sourceId); }
    }
    forall j | 0 <= j < |e| ensures InOrder(r, owners, e, j) {
      assert InOrder(t, owner, e, j);
    }
  }

  lemma FinishKeeps(t: Tools, r: Tools, phase: map<string, Phase>, owner: map<string, string>, e: seq<Payload>,
                    log: seq<Payload>,
                    id: string, events: seq<Payload>)
    requires ViewInv(t, phase, owner, e, log)
    requires id in phase && phase[id].Handling? && id !in t.finished
    requires |events| >= 1 && events[0].ToolFinished? && events[0].callId == id
    requires SourcesAdded(t.(finished := t.finished[id := events[0]]), id, r, events[1..])
    ensures ViewInv(r, phase[id := Emitting(events, true)], owner + NewOwners(t, r, id), e, log)
  {
    FinishCalls(t, r, phase, owner, e, id, events);
    FinishSources(t, r, phase, owner, e, id, events);
    FinishOrder(t, r, owner, owner + NewOwners(t, r, id), e, id, events);
    FinishPersisted(t, r, e, log, id, events);
    FinishDomains(t, r, phase, owner, id, events);
  }

  lemma FinishDomains(t: Tools, r: Tools, phase: map<string, Phase>, owner: map<string, string>, id: string,
                      events: seq<Payload>)
    requires Domains(t, phase, owner) && id in phase && |events| >= 1
    requires SourcesAdded(t.(finished := t.finished[id := events[0]]), id, r, events[1..])
    ensures Domains(r, phase[id := Emitting(events, true)], owner + NewOwners(t, r, id))
  {
    var closed := t.(finished := t.finished[id := events[0]]);
    forall x | x in t.sources ensures x in r.sources { assert SourceKept(closed, r, x); }
  }

  lemma FinishPersisted(t: Tools, r: Tools, e: seq<Payload>, log: seq<Payload>, id: string, events: seq<Payload>)
    requires AllKnown(t, e) && PersistedInv(t, log) && log <= e && id !in t.finished
    requires |events| >= 1 && events[0].ToolFinished? && events[0].callId == id
    requires SourcesAdded(t.(finished := t.finished[id := events[0]]), id, r, events[1..])
    ensures PersistedInv(r, log)
  {
    var closed := t.(finished := t.finished[id := events[0]]);
    assert forall p :: p in log ==> p in e;
    assert events[0] !in log by { assert !Known(t, events[0]); }
    forall x | x in r.sources ensures x in r.pSources <==> r.sources[x].payload in log {
      if x in t.sources { assert SourceKept(closed, r, x); }
      else {
        assert SourceNew(closed, r, id, events[1..], x);
        assert !Known(t, r.sources[x].payload);
      }
    }
  }

  /** The oldest emitted, not yet persisted event is always acceptable to the ledger. */
  lemma HeadValid(t: Tools, phase: map<string, Phase>, owner: map<string, string>, e: seq<Payload>, log: seq<Payload>)
    requires ViewInv(t, phase, owner, e, log) && |e| > |log|
    ensures forall l: Ledger :: ToolsOf(l) == t ==> ValidateEvent(l, e[|log|]).None?
  {
    var n := |log|;
    var p := e[n];
    assert p in e && Known(t, p) && InOrder(t, owner, e, n);
    assert e[..n] == log;
    forall i | 0 <= i < n ensures p.MessageDelta? || log[i] != p { assert e[i] == log[i]; }
    if p.SourceAdded? {
      assert SourceInv(t, phase, owner, e, p.sourceId);
      assert owner[p.sourceId] in t.sources[p.sourceId].calls * t.pFinished;
    }
  }

  function Confirmed(t: Tools, p: Payload): Tools {
    match p
    case ToolStarted(id, _, _, _) => t.(pStarted := t.pStarted + {id})
    case ToolFinished(id, _, _, _) => t.(pFinished := t.pFinished + {id})
    case SourceAdded(x, _, _) => t.(pSources := t.pSources + {x})
    case _ => t
  }

  lemma ConfirmPersisted(t: Tools, phase: map<string, Phase>, owner: map<string, string>, e: seq<Payload>,
                         log: seq<Payload>, p: Payload)
    requires Domains(t, phase, owner) && AllCalls(t, phase, owner, e) && AllSources(t, phase, owner, e)
    requires PersistedInv(t, log) && Known(t, p)
    ensures PersistedInv(Confirmed(t, p), log + [p])
  {
    var more := log + [p];
    assert forall q :: q in more <==> q in log || q == p;
    forall c | c in t.started ensures t.started[c].ToolStarted? && t.started[c].callId == c { assert CallInv(t, phase[c], owner, e, c); }
    forall c | c in t.finished ensures t.finished[c].ToolFinished? && t.finished[c].callId == c { assert CallInv(t, phase[c], owner, e, c); }
    forall x | x in t.sources ensures t.sources[x].payload.SourceAdded? && t.sources[x].payload.sourceId == x { assert SourceInv(t, phase, owner, e, x); }
  }

  lemma SamePublicCalls(t: Tools, r: Tools, phase: map<string, Phase>, owner: map<string, string>, e: seq<Payload>)
    requires AllCalls(t, phase, owner, e)
    requires r.started == t.started && r.finished == t.finished && r.sources == t.sources
    ensures AllCalls(r, phase, owner, e)
  {
    forall c | c in phase ensures CallInv(r, phase[c], owner, e, c) {
      assert CallInv(t, phase[c], owner, e, c);
      forall q | OwnSources(t, owner, e, c, q) ensures OwnSources(r, owner, e, c, q) {
        forall o | o in q ensures OwnSource(r, owner, e, c, o) { assert OwnSource(t, owner, e, c, o); }
      }
    }
  }

  lemma SamePublicEvents(t: Tools, r: Tools, phase: map<string, Phase>, owner: map<string, string>, e: seq<Payload>)
    requires AllKnown(t, e) && AllInOrder(t, owner, e) && AllSources(t, phase, owner, e)
    requires r.started == t.started && r.finished == t.finished && r.sources == t.sources
    ensures AllKnown(r, e) && AllInOrder(r, owner, e) && AllSources(r, phase, owner, e)
  {
    forall q | q in e ensures Known(r, q) { assert Known(t, q); }
    forall j | 0 <= j < |e| ensures InOrder(r, owner, e, j) { assert InOrder(t, owner, e, j); }
    forall x | x in r.sources ensures SourceInv(r, phase, owner, e, x) { assert SourceInv(t, phase, owner, e, x); }
  }

  lemma ConfirmKeeps(t: Tools, phase: map<string, Phase>, owner: map<string, string>, e: seq<Payload>,
                     log: seq<Payload>)
    requires ViewInv(t, phase, owner, e, log) && |e| > |log|
    ensures ViewInv(Confirmed(t, e[|log|]), phase, owner, e, log + [e[|log|]])
  {
    var p := e[|log|];
    var r := Confirmed(t, p);
    assert p in e && Known(t, p);
    ConfirmPersisted(t, phase, owner, e, log, p);
    SamePublicCalls(t, r, phase, owner, e);
    SamePublicEvents(t, r, phase, owner, e);
  }

  lemma ModelStepKeeps(limits: PolicyLimits, reg: Registry, s: Pipe, op: LedgerOp)
    requires PipeInv(s)
    ensures PipeInv(Advance(limits, reg, s, Model(op)))
  {
    var next := Advance(limits, reg, s, Model(op));
    if op.ModelCall? || op.ModelResponse? || op.Finalize? { ModelLeavesTools(limits, reg, s.l, op); }
    assert ToolsOf(next.l) == ToolsOf(s.l) && Emitted(next) == Emitted(s);
  }

  lemma BeginStepKeeps(limits: PolicyLimits, reg: Registry, s: Pipe, step: PipeStep)
    requires PipeInv(s) && step.Begin?
    ensures PipeInv(Advance(limits, reg, s, step))
  {
    var next := Advance(limits, reg, s, step);
    if BeginToolCall(limits, reg, s.l, step.id, step.tool, step.arguments, step.permitted, step.now).violation.None? {
      var p := next.l.started[step.id];
      assert ToolsOf(next.l) == ToolsOf(s.l).(started := s.l.started[step.id := p]) && Emitted(next) == Emitted(s);
      BeginKeeps(ToolsOf(s.l), s.phase, s.owner, Emitted(s), s.log, step.id, p);
    }
  }

  lemma EmitStepKeeps(limits: PolicyLimits, reg: Registry, s: Pipe, id: string)
    requires PipeInv(s)
    ensures PipeInv(Advance(limits, reg, s, Emit(id)))
  {
    if id in s.phase && s.phase[id].Emitting? && s.phase[id].pending != [] {
      EmitKeeps(ToolsOf(s.l), s.phase, s.owner, Emitted(s), s.log, id);
      assert Emitted(Advance(limits, reg, s, Emit(id))) == Emitted(s) + [s.phase[id].pending[0]];
    }
  }

  lemma TakeKeeps(limits: PolicyLimits, reg: Registry, s: Pipe)
    requires PipeInv(s)
    ensures PipeInv(Advance(limits, reg, s, Take))
  {
    var e := Emitted(s);
    if |e| > |s.log| && s.inflight.None? {
      HeadValid(ToolsOf(s.l), s.phase, s.owner, e, s.log);
      assert Emitted(Advance(limits, reg, s, Take)) == e && e[|s.log|] == s.queue[0];
    }
  }

  lemma ConfirmStepKeeps(limits: PolicyLimits, reg: Registry, s: Pipe)
    requires PipeInv(s)
    ensures PipeInv(Advance(limits, reg, s, Confirm))
  {
    if s.inflight.Some? {
      var t, e := ToolsOf(s.l), Emitted(s);
      assert e[|s.log|] == s.inflight.value;
      HeadValid(t, s.phase, s.owner, e, s.log);
      ConfirmFields(limits, reg, s);
      ConfirmKeeps(t, s.phase, s.owner, e, s.log);
    }
  }

  lemma ConfirmFields(limits: PolicyLimits, reg: Registry, s: Pipe)
    requires s.inflight.Some? && ValidateEvent(s.l, s.inflight.value).None?
    ensures var next := Advance(limits, reg, s, Confirm);
      && next.rejected == s.rejected && next.phase == s.phase && next.owner == s.owner
      && next.log == s.log + [s.inflight.value] && Emitted(next) == Emitted(s)
      && ToolsOf(next.l) == Confirmed(ToolsOf(s.l), s.inflight.value)
  {}

  lemma StepKeeps(limits: PolicyLimits, reg: Registry, s: Pipe, step: PipeStep)
    requires PipeInv(s)
    ensures PipeInv(Advance(limits, reg, s, step))
  {
    match step
    case Model(op) => ModelStepKeeps(limits, reg, s, op);
    case Begin(_, _, _, _, _) => BeginStepKeeps(limits, reg, s, step);
    case Emit(id) => EmitStepKeeps(limits, reg, s, id);
    case HandlerFails(id) => FailStepKeeps(limits, reg, s, id);
    case HandlerReturns(_, _, _, _, _) => ReturnKeeps(limits, reg, s, step);
    case EmitDelta(text) => DeltaStepKeeps(limits, reg, s, text);
    case Take => TakeKeeps(limits, reg, s);
    case Confirm => ConfirmStepKeeps(limits, reg, s);
  }

  lemma FailStepKeeps(limits: PolicyLimits, reg: Registry, s: Pipe, id: string)
    requires PipeInv(s)
    ensures PipeInv(Advance(limits, reg, s, HandlerFails(id)))
  {
    if id in s.phase && s.phase[id].Handling? {
      FailKeeps(ToolsOf(s.l), s.phase, s.owner, Emitted(s), s.log, id);
      assert Emitted(Advance(limits, reg, s, HandlerFails(id))) == Emitted(s);
    }
  }

  lemma DeltaStepKeeps(limits: PolicyLimits, reg: Registry, s: Pipe, text: string)
    requires PipeInv(s)
    ensures PipeInv(Advance(limits, reg, s, EmitDelta(text)))
  {
    DeltaKeeps(ToolsOf(s.l), s.phase, s.owner, Emitted(s), s.log, text);
    assert Emitted(Advance(limits, reg, s, EmitDelta(text))) == Emitted(s) + [MessageDelta(text)];
  }

  lemma ReturnKeeps(limits: PolicyLimits, reg: Registry, s: Pipe, step: PipeStep)
    requires PipeInv(s) && step.HandlerReturns?
    ensures PipeInv(Advance(limits, reg, s, step))
  {
    var t, e, id, next := ToolsOf(s.l), Emitted(s), step.id, Advance(limits, reg, s, step);
    if id in s.phase && s.phase[id].Handling? {
      var f := FinishToolCall(limits, reg, s.l, id, step.tool, step.sound, step.outcome, step.now);
      assert Emitted(next) == e;
      if f.violation.Some? {
        FailKeeps(t, s.phase, s.owner, e, s.log, id);
        assert f.ledger == s.l;
      } else {
        FinishFacts(limits, reg, s.l, id, step.tool, step.sound, step.outcome, step.now);
        FinishKeeps(t, ToolsOf(f.ledger), s.phase, s.owner, e, s.log, id, f.events);
        assert NewSources(s.l, f.ledger, id) == NewOwners(t, ToolsOf(f.ledger), id);
      }
    }
  }

  lemma {:induction false} RunInv(limits: PolicyLimits, reg: Registry, steps: seq<PipeStep>)
    ensures PipeInv(Run(limits, reg, steps))
  {
    if steps != [] {
      RunInv(limits, reg, steps[..|steps| - 1]);
      StepKeeps(limits, reg, Run(limits, reg, steps[..|steps| - 1]), steps[|steps| - 1]);
    }
  }

  // ----- main results -----

  /** Whatever the interleaving, the consumer never rejects an event the ledger emitted. */
  lemma NeverRejected(limits: PolicyLimits, reg: Registry, steps: seq<PipeStep>)
    ensures !Run(limits, reg, steps).rejected
  {
    RunInv(limits, reg, steps);
  }

  /** Call `c` contributed to source `x` and its start and finish are persisted in this order before index `j`. */
  ghost predicate Justified(s: Pipe, x: string, c: string, j: nat) {
    && x in s.l.sources && c in s.l.sources[x].calls
    && exists i, k :: 0 <= k < i < j < |s.log|
         && s.log[k].ToolStarted? && s.log[k].callId == c && s.log[i].ToolFinished? && s.log[i].callId == c
  }

  /** Each persisted source follows the persisted finish of a contributing call, which follows its persisted start. */
  lemma PersistedInCausalOrder(limits: PolicyLimits, reg: Registry, steps: seq<PipeStep>, j: nat)
    requires j < |Run(limits, reg, steps).log| && Run(limits, reg, steps).log[j].SourceAdded?
    ensures var s := Run(limits, reg, steps); exists c :: Justified(s, s.log[j].sourceId, c, j)
  {
    RunInv(limits, reg, steps);
    var s := Run(limits, reg, steps);
    var e := Emitted(s);
    assert e[j] == s.log[j];
    var c, i, k := FinishBefore(ToolsOf(s.l), s.phase, s.owner, e, s.log, j);
    assert e[i] == s.log[i] && s.log[k] == e[k];
    assert Justified(s, s.log[j].sourceId, c, j);
  }

  /** The finish and the start behind an emitted source. */
  lemma FinishBefore(t: Tools, phase: map<string, Phase>, owner: map<string, string>, e: seq<Payload>,
                     log: seq<Payload>, j: nat)
    returns (c: string, i: nat, k: nat)
    requires ViewInv(t, phase, owner, e, log) && j < |e| && e[j].SourceAdded?
    ensures e[j].sourceId in t.sources && e[j].sourceId in owner && c == owner[e[j].sourceId]
    ensures k < i < j && c in t.started && c in t.finished && e[i] == t.finished[c] && e[k] == t.started[c]
    ensures e[i].ToolFinished? && e[i].callId == c && e[k].ToolStarted? && e[k].callId == c
  {
    var x := e[j].sourceId;
    assert e[j] in e && Known(t, e[j]) && InOrder(t, owner, e, j) && SourceInv(t, phase, owner, e, x);
    c := owner[x];
    i :| 0 <= i < j && e[..j][i] == t.finished[c];
    assert CallInv(t, phase[c], owner, e, c) && InOrder(t, owner, e, i);
    k :| 0 <= k < i && e[..i][k] == t.started[c];
  }

  /** Once every call has succeeded and the queue is drained, the persisted sources are the generated ones. */
  lemma DrainedSourcesAgree(limits: PolicyLimits, reg: Registry, steps: seq<PipeStep>)
    requires var s := Run(limits, reg, steps);
      s.queue == [] && s.inflight.None? && forall c :: c in s.phase ==> s.phase[c].Done?
    ensures var s := Run(limits, reg, steps);
      && s.l.persistedSources == s.l.sources.Keys
      && forall x :: x in s.l.generated <==> x in s.l.persistedSources
  {
    RunInv(limits, reg, steps);
    var s := Run(limits, reg, steps);
    assert Emitted(s) == s.log;
    AllDonePersisted(ToolsOf(s.l), s.phase, s.owner, s.log);
  }

  lemma AllDonePersisted(t: Tools, phase: map<string, Phase>, owner: map<string, string>, log: seq<Payload>)
    requires Domains(t, phase, owner) && AllSources(t, phase, owner, log) && PersistedInv(t, log)
    requires forall c :: c in phase ==> phase[c].Done?
    ensures t.pSources == t.sources.Keys && forall x :: x in t.generated <==> x in t.pSources
  {
    forall x | x in t.sources ensures x in t.pSources { assert SourceInv(t, phase, owner, log, x); }
  }
}
