/** The mutable policy execution of one run; every method performs exactly one ledger step. */
module RunExecution {
  import opened Common
  import opened RunRecords
  import opened PolicyLedger

  class RunExecution {
    const limits: PolicyLimits
    const registry: Registry

    var modelSteps: nat
    var attempted: nat
    var succeeded: nat
    var repeated: nat
    var noProgress: nat
    var progressRevision: nat
    var lastModelRevision: nat
    var lastFingerprint: Option<Fingerprint>
    var identical: nat
    var seen: set<ProgressKey>
    var reservations: map<string, Reservation>
    var started: map<string, Payload>
    var finished: map<string, Payload>
    var sources: map<string, SourceEntry>
    var generated: seq<string>
    var persistedStarted: set<string>
    var persistedFinished: set<string>
    var persistedSources: set<string>
    var persistedOrder: seq<string>
    var validation: Validation
    var resultSources: seq<string>

    function Ledger(): Ledger reads this {
      PolicyLedger.Ledger.Ledger(
        modelSteps, attempted, succeeded, repeated, noProgress, progressRevision, lastModelRevision,
        lastFingerprint, identical, seen, reservations, started, finished, sources, generated,
        persistedStarted, persistedFinished, persistedSources, persistedOrder, validation, resultSources)
    }

    constructor (limits: PolicyLimits, registry: Registry)
      ensures Ledger() == EMPTY_LEDGER && this.limits == limits && this.registry == registry
    {
      this.limits, this.registry := limits, registry;
      modelSteps, attempted, succeeded, repeated, noProgress, progressRevision, lastModelRevision := 0, 0, 0, 0, 0, 0, 0;
      lastFingerprint, identical, seen := None, 0, {};
      reservations, started, finished, sources, generated := map[], map[], map[], map[], [];
      persistedStarted, persistedFinished, persistedSources, persistedOrder := {}, {}, {}, [];
      validation, resultSources := NotRun, [];
    }

    method RecordProgress(key: ProgressKey)
      modifies this`seen, this`progressRevision
      ensures Ledger() == PolicyLedger.RecordProgress(old(Ledger()), key)
    {
      if key in seen { return; }
      seen := seen + {key};
      progressRevision := progressRevision + 1;
    }

    method BeforeModelCall(now: int) returns (v: Option<Violation>)
      modifies this
      ensures PolicyLedger.BeforeModelCall(limits, old(Ledger()), now) == Step(Ledger(), v)
    {
      if now >= limits.deadlineAt { return Some(RunTimeout); }
      if modelSteps > 0 {
        if progressRevision == lastModelRevision {
          noProgress := noProgress + 1;
          if noProgress >= limits.maxNoProgress { return Some(NoProgress); }
        } else {
          noProgress := 0;
        }
      }
      lastModelRevision := progressRevision;
      modelSteps := modelSteps + 1;
      if modelSteps > limits.maxModelSteps { return Some(ModelStepLimit); }
      v := None;
    }

    /** Examine a batch without reserving anything. */
    method ExamineCalls(calls: seq<RawCall>) returns (b: Batch)
      ensures b == ExamineBatch(limits, registry, EmptyBatch(Ledger()), calls)
    {
      b := EmptyBatch(Ledger());
      ghost var goal := ExamineBatch(limits, registry, b, calls);
      assert calls[0..] == calls;
      for i := 0 to |calls|
        invariant b.violation.None? && ExamineBatch(limits, registry, b, calls[i..]) == goal
      {
        var c := calls[i];
        assert calls[i..][0] == c && calls[i..][1..] == calls[i + 1..];
        if !WellFormedCall(c, b.known) { return b.(violation := Some(ExecutionFailed("tool_call_invalid"))); }
        if c.tool.value !in registry.visible { return b.(violation := Some(ToolNotAllowed)); }
        var fingerprint := CanonicalFingerprint(registry, c);
        if fingerprint.None? { return b.(violation := Some(ExecutionFailed("tool_arguments_invalid"))); }
        b := b.(known := b.known + {c.id.value});
        if b.last == fingerprint {
          b := b.(identical := b.identical + 1, repeated := b.repeated + 1);
        } else {
          b := b.(identical := 1);
        }
        b := b.(last := fingerprint);
        if b.identical > limits.maxIdentical { return b.(violation := Some(RepeatedToolCall)); }
        b := b.(pending := b.pending[c.id.value := Reservation(c.tool.value, fingerprint.value)]);
      }
    }

    method ReserveToolCalls(calls: seq<RawCall>, now: int) returns (v: Option<Violation>)
      modifies this
      ensures PolicyLedger.ReserveToolCalls(limits, registry, old(Ledger()), calls, now) == Step(Ledger(), v)
    {
      if now >= limits.deadlineAt { return Some(RunTimeout); }
      if calls == [] { return None; }
      ghost var before := Ledger();
      attempted := attempted + |calls|;
      ghost var counted := Ledger();
      assert counted == before.(attempted := before.attempted + |calls|);
      if attempted > limits.maxToolCalls { return Some(ToolCallLimit); }
      var b := ExamineCalls(calls);
      assert EmptyBatch(counted) == EmptyBatch(before);
      if b.violation.None? {
        StoreCounters(b);
        reservations := reservations + b.pending;
        assert Ledger() == counted.(lastFingerprint := b.last, identical := b.identical, repeated := b.repeated,
                                    reservations := before.reservations + b.pending);
        return None;
      }
      if b.violation.value.RepeatedToolCall? { StoreCounters(b); }
      v := b.violation;
    }

    method StoreCounters(b: Batch)
      modifies this`lastFingerprint, this`identical, this`repeated
      ensures Ledger() == old(Ledger()).(lastFingerprint := b.last, identical := b.identical, repeated := b.repeated)
    {
      lastFingerprint, identical, repeated := b.last, b.identical, b.repeated;
    }

    method AfterModelResponse(texts: seq<string>, calls: seq<RawCall>, now: int) returns (v: Option<Violation>)
      modifies this
      ensures PolicyLedger.AfterModelResponse(limits, registry, old(Ledger()), texts, calls, now) == Step(Ledger(), v)
    {
      for i := 0 to |texts|
        invariant RecordTexts(Ledger(), texts[i..]) == RecordTexts(old(Ledger()), texts)
      {
        assert texts[i..][0] == texts[i] && texts[i..][1..] == texts[i + 1..];
        if texts[i] != "" { RecordProgress(AnswerText(texts[i])); }
      }
      if calls == [] { return None; }
      v := ReserveToolCalls(calls, now);
    }

    method BeginToolCall(id: string, tool: string, arguments: string, permitted: bool, now: int)
      returns (r: Result<Payload, Violation>)
      modifies this`started
      ensures var s := PolicyLedger.BeginToolCall(limits, registry, old(Ledger()), id, tool, arguments, permitted, now);
        && Ledger() == s.ledger
        && match r case Ok(p) => s.violation.None? && id in started && started[id] == p
                   case Err(v) => s.violation == Some(v)
    {
      if now >= limits.deadlineAt { return Err(RunTimeout); }
      if id !in reservations || reservations[id].tool != tool || id in started { return Err(ToolNotAllowed); }
      var canonical := (registry.canonical)(tool, arguments);
      if canonical.None? { return Err(ExecutionFailed("tool_arguments_invalid")); }
      if Fingerprint(tool, canonical.value) != reservations[id].fingerprint { return Err(ToolNotAllowed); }
      if !permitted { return Err(ToolNotAllowed); }
      var p := StartedPayload(registry, id, tool, canonical.value);
      started := started[id := p];
      r := Ok(p);
    }

    method FinishToolCall(id: string, tool: string, sound: bool, outcome: Option<ToolOutcome>, now: int)
      returns (r: Result<seq<Payload>, Violation>)
      modifies this
      ensures var f := PolicyLedger.FinishToolCall(limits, registry, old(Ledger()), id, tool, sound, outcome, now);
        && Ledger() == f.ledger
        && match r case Ok(events) => f.violation.None? && events == f.events
                   case Err(v) => f.violation == Some(v)
    {
      if now >= limits.deadlineAt { return Err(RunTimeout); }
      if id !in started || !started[id].ToolStarted? || started[id].name != tool || id in finished || !sound {
        return Err(ExecutionFailed("tool_lifecycle_invalid"));
      }
      if outcome.None? { return Err(ExecutionFailed("tool_execution_failed")); }
      var o := outcome.value;
      var conflict := HasConflict(o.sources);
      if conflict { return Err(SourceValidationFailed); }
      var events := RecordFinish(id, ToolFinished(id, tool, (registry.title)(tool), o.result), o);
      r := Ok(events);
    }

    /** The finish becomes an event, then every source that is new. */
    method RecordFinish(id: string, done: Payload, o: ToolOutcome) returns (events: seq<Payload>)
      modifies this
      ensures var closed := PolicyLedger.RecordProgress(
          old(Ledger()).(finished := old(finished)[id := done], succeeded := old(succeeded) + 1), ToolFact(o.fact));
        Ledger() == AddSources(closed, id, o.sources).0 && events == [done] + AddSources(closed, id, o.sources).1
    {
      CloseCall(id, done, o.fact);
      var added := AddToolSources(id, o.sources);
      events := [done] + added;
    }

    method CloseCall(id: string, done: Payload, fact: string)
      modifies this
      ensures Ledger() == PolicyLedger.RecordProgress(
        old(Ledger()).(finished := old(finished)[id := done], succeeded := old(succeeded) + 1), ToolFact(fact))
    {
      finished := finished[id := done];
      succeeded := succeeded + 1;
      RecordProgress(ToolFact(fact));
    }

    method HasConflict(found: seq<ToolSource>) returns (conflict: bool)
      ensures conflict <==> exists i :: 0 <= i < |found| && SourceConflict(Ledger(), found[i])
    {
      for i := 0 to |found|
        invariant forall j :: 0 <= j < i ==> !SourceConflict(Ledger(), found[j])
      {
        if SourceConflict(Ledger(), found[i]) { return true; }
      }
      conflict := false;
    }

    method AddToolSource(id: string, s: ToolSource) returns (events: seq<Payload>)
      modifies this
      ensures Ledger() == AddSources(old(Ledger()), id, [s]).0 && events == AddSources(old(Ledger()), id, [s]).1
    {
      AddOneSource(Ledger(), id, s);
      events := [];
      if s.id in sources {
        sources := sources[s.id := sources[s.id].(calls := sources[s.id].calls + {id})];
      } else {
        sources := sources[s.id := SourceEntry({id}, SourcePayload(s))];
        generated := generated + [s.id];
        RecordProgress(SourceSeen(s.id));
        events := [SourcePayload(s)];
      }
    }

    /** Merge the sources of one finished call; only new sources become events. */
    method AddToolSources(id: string, found: seq<ToolSource>) returns (events: seq<Payload>)
      modifies this
      ensures Ledger() == AddSources(old(Ledger()), id, found).0 && events == AddSources(old(Ledger()), id, found).1
    {
      events := [];
      assert found[0..] == found;
      ghost var all := AddSources(Ledger(), id, found);
      ghost var owed := all.1;
      for i := 0 to |found|
        invariant AddSources(Ledger(), id, found[i..]) == (all.0, owed)
        invariant events + owed == all.1
      {
        AddSourcesSplit(Ledger(), id, found[i..]);
        assert found[i..][1..] == found[i + 1..];
        var one := AddToolSource(id, found[i]);
        owed := AddSources(Ledger(), id, found[i + 1..]).1;
        Assoc(events, one, owed);
        events := events + one;
      }
      AddNoSources(Ledger(), id, found[|found|..]);
    }

    /** Confirm that a validated event reached the durable log. */
    method AcceptRuntimeEvent(p: Payload) returns (v: Option<Violation>)
      modifies this
      ensures AcceptEvent(old(Ledger()), p) == Step(Ledger(), v)
    {
      v := ValidateEvent(Ledger(), p);
      if v.Some? { return; }
      match p {
        case ToolStarted(id, _, _, _) => persistedStarted := persistedStarted + {id};
        case ToolFinished(id, _, _, _) => persistedFinished := persistedFinished + {id};
        case SourceAdded(s, _, _) =>
          persistedSources := persistedSources + {s};
          persistedOrder := persistedOrder + [s];
        case _ =>
      }
    }

    /** The final validator: schema, answer limit, agreement with the streamed text, then the sources. */
    method ValidateResult(r: AgentResult, runtimeText: string) returns (v: Option<Violation>)
      modifies this`validation, this`resultSources
      ensures PolicyLedger.ValidateResult(limits, old(Ledger()), r, runtimeText) == Step(Ledger(), v)
    {
      validation := Rejected;
      if !ResultWellFormed(r) || |r.text| > limits.maxAnswerChars || runtimeText != r.text { return Some(ResultSchemaInvalid); }
      for i := 0 to |r.sources|
        invariant forall j :: 0 <= j < i ==> r.sources[j] in persistedSources
        invariant Ledger() == old(Ledger()).(validation := Rejected)
      {
        if r.sources[i] !in persistedSources { return Some(SourceValidationFailed); }
      }
      if succeeded == 0 && r.sources != [] { return Some(SourceValidationFailed); }
      if limits.sourcePolicy.Required? && r.sources == [] { return Some(SourceValidationFailed); }
      if limits.sourcePolicy.RequiredIfToolUsed? && succeeded > 0 && r.sources == [] { return Some(SourceValidationFailed); }
      validation, resultSources := Passed, r.sources;
      v := None;
    }

    /** Freeze a schema rejection raised before the final validator. */
    method RecordResultValidationFailure()
      modifies this`validation, this`resultSources
      ensures Ledger() == RecordValidationFailure(old(Ledger()))
    {
      validation, resultSources := Rejected, [];
    }
  }

  lemma Assoc(a: seq<Payload>, b: seq<Payload>, c: seq<Payload>)
    ensures a + (b + c) == a + b + c
  {}

  lemma AddNoSources(l: Ledger, id: string, found: seq<ToolSource>)
    requires found == []
    ensures AddSources(l, id, found) == (l, [])
  {}

  /** One source: a known one gains the call, a new one becomes an event. */
  lemma AddOneSource(l: Ledger, id: string, s: ToolSource)
    ensures AddSources(l, id, [s]).0 == (
      if s.id in l.sources then l.(sources := l.sources[s.id := l.sources[s.id].(calls := l.sources[s.id].calls + {id})])
      else PolicyLedger.RecordProgress(l.(sources := l.sources[s.id := SourceEntry({id}, SourcePayload(s))],
                                          generated := l.generated + [s.id]), SourceSeen(s.id)))
    ensures AddSources(l, id, [s]).1 == if s.id in l.sources then [] else [SourcePayload(s)]
  {
    if s.id in l.sources {
      AddNoSources(l.(sources := l.sources[s.id := l.sources[s.id].(calls := l.sources[s.id].calls + {id})]), id, [s][1..]);
    } else {
      AddNoSources(PolicyLedger.RecordProgress(l.(sources := l.sources[s.id := SourceEntry({id}, SourcePayload(s))],
                                                  generated := l.generated + [s.id]), SourceSeen(s.id)), id, [s][1..]);
    }
  }

  lemma AddSourcesSplit(l: Ledger, id: string, found: seq<ToolSource>)
    requires found != []
    ensures var one := AddSources(l, id, [found[0]]);
      var rest := AddSources(one.0, id, found[1..]);
      AddSources(l, id, found).0 == rest.0 && AddSources(l, id, found).1 == one.1 + rest.1
  {
    AddOneSource(l, id, found[0]);
    var rest := AddSources(AddSources(l, id, [found[0]]).0, id, found[1..]);
    assert [] + rest.1 == rest.1;
  }
}
