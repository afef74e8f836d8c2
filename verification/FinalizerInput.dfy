/**
  When the finalizer hooks accept, refuse or stream, and exactly what a terminal stream is given
  (agent_runtime.py).
*/
module FinalizerInput {
  import opened Common
  import opened Finalizer
  import opened FinalizerGraph

  // ----- which call is the control call -----

  /** Call `k` is the control call, and the only one. */
  predicate OnlyControl(calls: seq<Call>, k: nat) {
    k < |calls| && IsControl(calls[k]) && forall i :: 0 <= i < |calls| && i != k ==> !IsControl(calls[i])
  }

  predicate NoneControl(calls: seq<Call>) { forall i :: 0 <= i < |calls| ==> !IsControl(calls[i]) }

  /** All calls but `k` are of tools that may end a decision. */
  predicate OthersTerminal(tools: Tools, calls: seq<Call>, k: nat) {
    forall i :: 0 <= i < |calls| && i != k ==> TerminalTool(tools, calls[i])
  }

  lemma OneControl(calls: seq<Call>, k: nat)
    requires OnlyControl(calls, k)
    ensures Controls(calls) == [calls[k]] && |Externals(calls)| == |calls| - 1
    ensures forall c :: c in Externals(calls) <==> exists i :: 0 <= i < |calls| && i != k && calls[i] == c
  {
    assert calls == calls[..k] + ([calls[k]] + calls[k + 1..]);
    ControlsSplit(calls[..k], calls[k], calls[k + 1..]);
    forall c | c in Externals(calls) ensures exists i :: 0 <= i < |calls| && i != k && calls[i] == c {
      var i :| 0 <= i < |calls| && calls[i] == c;
      assert i != k;
    }
  }

  lemma ControlsSplit(a: seq<Call>, c: Call, b: seq<Call>)
    requires IsControl(c) && NoneControl(a) && NoneControl(b)
    ensures Controls(a + ([c] + b)) == [c] && |Externals(a + ([c] + b))| == |a| + |b|
  {
    FilterConcat(a, [c] + b, (x: Call) => IsControl(x));
    FilterNone(a, (x: Call) => IsControl(x));
    FilterNone(b, (x: Call) => IsControl(x));
    assert ([c] + b)[1..] == b;
    FilterConcat(a, [c] + b, (x: Call) => !IsControl(x));
    KeepsAll(a);
    KeepsAll(b);
  }

  lemma {:induction false} KeepsAll(calls: seq<Call>)
    requires NoneControl(calls)
    ensures Externals(calls) == calls
  {
    if calls != [] {
      assert NoneControl(calls[1..]) by {
        forall i | 0 <= i < |calls| - 1 ensures !IsControl(calls[1..][i]) { assert calls[1..][i] == calls[i + 1]; }
      }
      KeepsAll(calls[1..]);
    }
  }

  /** A single control call stands at one place. */
  lemma OneControlPlace(calls: seq<Call>) returns (k: nat)
    requires |Controls(calls)| == 1
    ensures OnlyControl(calls, k)
  {
    var at := FilterSelects(calls, (c: Call) => IsControl(c));
    k := at[0];
    assert k in at;
    forall i | 0 <= i < |calls| && i != k ensures !IsControl(calls[i]) { assert i !in at; }
  }

  // ----- the decision of the model -----

  /** The decision carries one private control call that may be accepted, and otherwise only calls that may end it. */
  predicate SignalsEnd(ctx: Context, tools: Tools, m: Message, k: nat)
    requires m.Assistant?
  {
    && OnlyControl(m.calls, k) && OthersTerminal(tools, m.calls, k) && Named(m.calls) && DistinctIds(m.calls)
    && m.calls[k].noArguments && Blank(m.text) && !m.invalidCalls && ctx.pending.None? && ctx.completed.None?
  }

  /** A decision without a control call: other calls, or a plain answer that signals nothing. */
  predicate PlainDecision(m: Message)
    requires m.Assistant?
  {
    NoneControl(m.calls) && (m.calls == [] ==> !m.invalidCalls && !m.otherSignal && !Blank(m.text))
  }

  /** A response the run may go on with. */
  ghost predicate Acceptable(ctx: Context, tools: Tools, m: Message, ledgerAccepts: bool)
    requires m.Assistant?
  {
    || (PlainDecision(m) && ledgerAccepts)
    || exists k: nat :: SignalsEnd(ctx, tools, m, k) && (|m.calls| > 1 ==> ledgerAccepts)
  }

  /** Exactly these responses are accepted; only a control call changes the shared fields, to its own id. */
  lemma AcceptedIff(ctx: Context, tools: Tools, response: seq<Message>, structured: bool, ledgerAccepts: bool)
    ensures var d := Decide(ctx, tools, response, structured, ledgerAccepts);
      && (d.Ok? <==> |response| == 1 && response[0].Assistant? && !structured
                     && Acceptable(ctx, tools, response[0], ledgerAccepts))
      && (d.Ok? && NoneControl(response[0].calls) ==> d.value == ctx)
      && (forall k: nat :: d.Ok? && OnlyControl(response[0].calls, k) ==> d.value == ctx.(pending := response[0].calls[k].id))
  {
    if |response| == 1 && response[0].Assistant? && !structured {
      var m := response[0];
      ControlsEmpty(m.calls);
      if Controls(m.calls) != [] { ControlAccepted(ctx, tools, m, ledgerAccepts); } else { PlainAccepted(ctx, tools, m, ledgerAccepts); }
    }
  }

  lemma PlainAccepted(ctx: Context, tools: Tools, m: Message, ledgerAccepts: bool)
    requires m.Assistant? && NoneControl(m.calls)
    ensures Acceptable(ctx, tools, m, ledgerAccepts) <==> PlainDecision(m) && ledgerAccepts
    ensures forall k: nat :: !OnlyControl(m.calls, k)
  {}

  lemma ControlAccepted(ctx: Context, tools: Tools, m: Message, ledgerAccepts: bool)
    requires m.Assistant? && Controls(m.calls) != [] && !NoneControl(m.calls)
    ensures Acceptable(ctx, tools, m, ledgerAccepts) <==>
      SignalValid(ctx, tools, m) && (Externals(m.calls) != [] ==> ledgerAccepts)
    ensures forall k: nat :: OnlyControl(m.calls, k) ==> Controls(m.calls) == [m.calls[k]]
  {
    SignalIff(ctx, tools, m);
    if SignalValid(ctx, tools, m) {
      var k: nat :| SignalsEnd(ctx, tools, m, k);
      assert OnlyControl(m.calls, k);
    }
    if k: nat :| SignalsEnd(ctx, tools, m, k) && (|m.calls| > 1 ==> ledgerAccepts) {
      assert OnlyControl(m.calls, k);
    }
  }

  lemma SignalIff(ctx: Context, tools: Tools, m: Message)
    requires m.Assistant? && Controls(m.calls) != []
    ensures SignalValid(ctx, tools, m) <==> exists k: nat :: SignalsEnd(ctx, tools, m, k)
    ensures forall k: nat :: OnlyControl(m.calls, k) ==>
      Controls(m.calls) == [m.calls[k]] && (Externals(m.calls) != [] <==> |m.calls| > 1)
  {
    forall k: nat | OnlyControl(m.calls, k)
      ensures Controls(m.calls) == [m.calls[k]] && (Externals(m.calls) != [] <==> |m.calls| > 1)
      ensures AllTerminal(tools, Externals(m.calls)) <==> OthersTerminal(tools, m.calls, k)
    {
      OneControl(m.calls, k);
      OthersAre(tools, m.calls, k);
    }
    if |Controls(m.calls)| == 1 {
      var k := OneControlPlace(m.calls);
      assert SignalValid(ctx, tools, m) <==> SignalsEnd(ctx, tools, m, k);
    }
    if k: nat :| SignalsEnd(ctx, tools, m, k) {
      assert OnlyControl(m.calls, k) && |Controls(m.calls)| == 1;
    }
  }

  lemma OthersAre(tools: Tools, calls: seq<Call>, k: nat)
    requires OnlyControl(calls, k)
    ensures AllTerminal(tools, Externals(calls)) <==> OthersTerminal(tools, calls, k)
  {
    OneControl(calls, k);
    var e := Externals(calls);
    if OthersTerminal(tools, calls, k) {
      forall i | 0 <= i < |e| ensures TerminalTool(tools, e[i]) { assert e[i] in e; }
    }
    if AllTerminal(tools, e) {
      forall i | 0 <= i < |calls| && i != k ensures TerminalTool(tools, calls[i]) {
        assert calls[i] in e;
        var j :| 0 <= j < |e| && e[j] == calls[i];
      }
    }
  }

  // ----- the exit -----

  /** The last message of the model. */
  predicate LastDecision(messages: seq<Message>, at: nat) {
    at < |messages| && messages[at].Assistant? && forall i :: at < i < |messages| ==> !messages[i].Assistant?
  }

  /** Every call has an id of its own and exactly one result, and every result is a success. */
  ghost predicate Answered(calls: seq<Call>, results: seq<Message>) {
    && Named(calls) && DistinctIds(calls) && |results| == |calls|
    && (forall i :: 0 <= i < |results| ==> results[i].ToolResult? && results[i].success)
    && (forall i :: 0 <= i < |calls| ==> HasResult(calls[i], results))
    && (forall j :: 0 <= j < |results| ==> HasCall(calls, results[j]))
  }

  /** The run may leave the loop of model and tools at all. */
  predicate MayExit(ctx: Context) { ctx.finalText.None? && ctx.pending.None? && ctx.requested }

  /** A plain answer, with nothing after it. */
  predicate DirectExit(ctx: Context, messages: seq<Message>, at: nat) {
    && MayExit(ctx) && ctx.completed.None? && LastDecision(messages, at) && at == |messages| - 1
    && messages[at].calls == [] && !messages[at].invalidCalls && !messages[at].otherSignal && !Blank(messages[at].text)
  }

  /** The decision holds the completed control call, its other calls may end it, and all of them were answered. */
  ghost predicate ControlExit(ctx: Context, tools: Tools, messages: seq<Message>, at: nat, k: nat) {
    && MayExit(ctx) && LastDecision(messages, at) && OnlyControl(messages[at].calls, k)
    && ctx.completed == messages[at].calls[k].id && OthersTerminal(tools, messages[at].calls, k)
    && Answered(messages[at].calls, messages[at + 1..])
  }

  /** A batch of calls that may end the run but holds no control call: the model is asked again. */
  ghost predicate BatchExit(ctx: Context, tools: Tools, messages: seq<Message>, at: nat) {
    && MayExit(ctx) && ctx.completed.None? && LastDecision(messages, at) && messages[at].calls != []
    && NoneControl(messages[at].calls) && AllTerminal(tools, messages[at].calls)
    && Answered(messages[at].calls, messages[at + 1..])
  }

  lemma LastIsLast(messages: seq<Message>, at: nat)
    requires LastDecision(messages, at)
    ensures LastAssistant(messages) == Some(at)
  {}

  lemma IdOfCall(calls: seq<Call>, id: string)
    ensures id in CallIds(calls) <==> exists i :: 0 <= i < |calls| && calls[i].id == Some(id)
  {
    if id in CallIds(calls) { var i :| 0 <= i < |calls| && calls[i].id.Some? && calls[i].id.value == id; }
    if i :| 0 <= i < |calls| && calls[i].id == Some(id) { assert calls[i].id.value in CallIds(calls); }
  }

  lemma IdOfResult(results: seq<Message>, id: string)
    requires forall i :: 0 <= i < |results| ==> results[i].ToolResult?
    ensures id in ResultIds(results) <==> exists j :: 0 <= j < |results| && results[j].callId == id
  {
    if id in ResultIds(results) { var j :| 0 <= j < |results| && results[j].ToolResult? && results[j].callId == id; }
    if j :| 0 <= j < |results| && results[j].callId == id { assert results[j].callId in ResultIds(results); }
  }

  predicate ResultOf(c: Call, result: Message) { result.ToolResult? && c.id == Some(result.callId) }

  predicate HasResult(c: Call, results: seq<Message>) { exists j :: 0 <= j < |results| && ResultOf(c, results[j]) }

  predicate HasCall(calls: seq<Call>, result: Message) { exists i :: 0 <= i < |calls| && ResultOf(calls[i], result) }

  lemma ResolvedIsAnswered(calls: seq<Call>, results: seq<Message>)
    requires Resolved(calls, results)
    ensures Answered(calls, results)
  {
    forall i | 0 <= i < |calls| ensures HasResult(calls[i], results) {
      IdOfCall(calls, calls[i].id.value);
      IdOfResult(results, calls[i].id.value);
      var j :| 0 <= j < |results| && results[j].callId == calls[i].id.value;
      assert ResultOf(calls[i], results[j]);
    }
    forall j | 0 <= j < |results| ensures HasCall(calls, results[j]) {
      IdOfCall(calls, results[j].callId);
      IdOfResult(results, results[j].callId);
      var i :| 0 <= i < |calls| && calls[i].id == Some(results[j].callId);
      assert ResultOf(calls[i], results[j]);
    }
  }

  lemma AnsweredIsResolved(calls: seq<Call>, results: seq<Message>)
    requires Answered(calls, results)
    ensures Resolved(calls, results)
  {
    forall id | id in ResultIds(results) ensures id in CallIds(calls) {
      IdOfResult(results, id);
      var j :| 0 <= j < |results| && results[j].callId == id;
      assert HasCall(calls, results[j]);
      IdOfCall(calls, id);
    }
    forall id | id in CallIds(calls) ensures id in ResultIds(results) {
      IdOfCall(calls, id);
      var i :| 0 <= i < |calls| && calls[i].id == Some(id);
      assert HasResult(calls[i], results);
      IdOfResult(results, id);
    }
  }

  // ----- what a terminal stream is given -----

  /** The history before the decision; then, if it had other calls, exactly those and their results, in their order. */
  ghost predicate GivenFor(messages: seq<Message>, at: nat, k: nat, given: seq<Message>)
    requires at < |messages| && messages[at].Assistant?
  {
    var calls, results := messages[at].calls, messages[at + 1..];
    && k < |calls| && at <= |given| && given[..at] == messages[..at]
    && (|calls| == 1 ==> |given| == at)
    && (|calls| > 1 ==>
         && |given| == at + |calls| && given[at].Assistant? && given[at].text == ""
         && !given[at].invalidCalls && !given[at].otherSignal
         && given[at].calls == calls[..k] + calls[k + 1..]
         && PicksResults(calls, k, results, given[at + 1..]))
  }

  /** The results of all calls but `k`, as they stand in the history. */
  ghost predicate ResultsPicked(calls: seq<Call>, k: nat, results: seq<Message>, picked: seq<Message>, from: seq<nat>) {
    && Rising(from) && PicksFrom(results, picked, from)
    && (forall j :: 0 <= j < |results| ==> (j in from <==> ResultOfOther(calls, k, results[j])))
  }

  ghost predicate PicksResults(calls: seq<Call>, k: nat, results: seq<Message>, picked: seq<Message>) {
    exists from: seq<nat> :: ResultsPicked(calls, k, results, picked, from)
  }

  predicate OtherCall(calls: seq<Call>, k: nat, id: string) {
    exists i :: 0 <= i < |calls| && i != k && calls[i].id == Some(id)
  }

  predicate ResultOfOther(calls: seq<Call>, k: nat, result: Message) {
    result.ToolResult? && OtherCall(calls, k, result.callId)
  }

  lemma ExternalsAre(calls: seq<Call>, k: nat)
    requires OnlyControl(calls, k)
    ensures Externals(calls) == calls[..k] + calls[k + 1..]
  {
    var a, b := calls[..k], calls[k + 1..];
    assert calls == a + ([calls[k]] + b);
    FilterConcat(a, [calls[k]] + b, (x: Call) => !IsControl(x));
    assert ([calls[k]] + b)[1..] == b;
    KeepsAll(a);
    KeepsAll(b);
  }

  lemma ExternalIds(calls: seq<Call>, k: nat, id: string)
    requires k < |calls|
    ensures id in CallIds(calls[..k] + calls[k + 1..]) <==> OtherCall(calls, k, id)
  {
    var e := calls[..k] + calls[k + 1..];
    IdOfCall(e, id);
    if i :| 0 <= i < |e| && e[i].id == Some(id) { assert e[i] == calls[if i < k then i else i + 1]; }
    if i :| 0 <= i < |calls| && i != k && calls[i].id == Some(id) { assert e[if i < k then i else i - 1] == calls[i]; }
  }

  lemma PickedResults(calls: seq<Call>, k: nat, results: seq<Message>) returns (from: seq<nat>)
    requires OnlyControl(calls, k)
    ensures ResultsPicked(calls, k, results, ExternalResults(results, CallIds(Externals(calls))), from)
  {
    ExternalsAre(calls, k);
    var ids := CallIds(Externals(calls));
    forall j | 0 <= j < |results| && results[j].ToolResult?
      ensures results[j].callId in ids <==> OtherCall(calls, k, results[j].callId)
    {
      ExternalIds(calls, k, results[j].callId);
    }
    from := FilterSelects(results, (m: Message) => m.ToolResult? && m.callId in ids);
  }

  /** What a terminal stream may be given: the history before a plain answer, or the projection of an ended decision. */
  ghost predicate StreamInput(ctx: Context, tools: Tools, messages: seq<Message>, given: seq<Message>) {
    || (exists at: nat :: DirectExit(ctx, messages, at) && given == messages[..at])
    || (exists at: nat, k: nat :: ControlExit(ctx, tools, messages, at, k) && GivenFor(messages, at, k, given))
  }

  lemma DirectExitStreams(ctx: Context, tools: Tools, messages: seq<Message>, at: nat)
    requires DirectExit(ctx, messages, at)
    ensures ExitDecision(ctx, tools, messages) == Exit.Stream(messages[..at])
  {
    LastIsLast(messages, at);
  }

  lemma ExitWithControl(ctx: Context, tools: Tools, messages: seq<Message>, at: nat, k: nat)
    requires ControlExit(ctx, tools, messages, at, k)
    ensures var calls, results := messages[at].calls, messages[at + 1..];
      ExitDecision(ctx, tools, messages) == Exit.Stream(
        if |calls| == 1 then messages[..at]
        else messages[..at] + [Assistant("", calls[..k] + calls[k + 1..], false, false)]
             + ExternalResults(results, CallIds(Externals(calls))))
  {
    var calls, results := messages[at].calls, messages[at + 1..];
    LastIsLast(messages, at);
    AnsweredIsResolved(calls, results);
    OneControl(calls, k);
    OthersAre(tools, calls, k);
    ExternalsAre(calls, k);
  }

  lemma ControlExitStreams(ctx: Context, tools: Tools, messages: seq<Message>, at: nat, k: nat)
    requires ControlExit(ctx, tools, messages, at, k)
    ensures var e := ExitDecision(ctx, tools, messages); e.Stream? && GivenFor(messages, at, k, e.messages)
  {
    var calls, results := messages[at].calls, messages[at + 1..];
    ExitWithControl(ctx, tools, messages, at, k);
    if |calls| > 1 {
      var picked := ExternalResults(results, CallIds(Externals(calls)));
      var from := PickedResults(calls, k, results);
      PickedCount(calls, k, results, picked, from);
      GivenShape(messages, at, k, picked);
    }
  }

  lemma {:induction false} DistinctIdsSize(calls: seq<Call>)
    requires Named(calls) && DistinctIds(calls)
    ensures |CallIds(calls)| == |calls|
  {
    if calls == [] {
      assert CallIds(calls) == {};
    } else {
      var n := |calls| - 1;
      var front := calls[..n];
      DistinctIdsSize(front);
      assert calls[n].id.value !in CallIds(front) by { IdOfCall(front, calls[n].id.value); }
      assert CallIds(calls) == CallIds(front) + {calls[n].id.value} by {
        assert calls == front + [calls[n]];
        forall id ensures id in CallIds(calls) <==> id in CallIds(front) + {calls[n].id.value} {
          IdOfCall(calls, id);
          IdOfCall(front, id);
          if i :| 0 <= i < n && front[i].id == Some(id) { assert calls[i].id == Some(id); }
        }
      }
    }
  }

  predicate GivesId(messages: seq<Message>, id: string) {
    exists p :: 0 <= p < |messages| && messages[p].ToolResult? && messages[p].callId == id
  }

  lemma GivesIdLast(messages: seq<Message>, id: string)
    requires messages != [] && GivesId(messages, id)
    ensures var n := |messages| - 1;
      GivesId(messages[..n], id) || (messages[n].ToolResult? && messages[n].callId == id)
  {
    var p :| 0 <= p < |messages| && messages[p].ToolResult? && messages[p].callId == id;
    if p < |messages| - 1 { assert messages[..|messages| - 1][p] == messages[p]; }
  }

  /** As many messages as there are ids among them. */
  lemma {:induction false} IdsBound(picked: seq<Message>, ids: set<string>)
    requires forall id :: id in ids ==> GivesId(picked, id)
    ensures |ids| <= |picked|
  {
    if picked == [] {
      assert forall id :: id in ids ==> GivesId(picked, id);
      assert ids == {};
    } else {
      var n := |picked| - 1;
      var last := picked[n];
      var rest := if last.ToolResult? then ids - {last.callId} else ids;
      forall id | id in rest ensures GivesId(picked[..n], id) { GivesIdLast(picked, id); }
      IdsBound(picked[..n], rest);
      if rest != ids { assert ids == rest + {last.callId}; }
    }
  }

  /** Each other call has exactly one of the results. */
  lemma PickedCount(calls: seq<Call>, k: nat, results: seq<Message>, picked: seq<Message>, from: seq<nat>)
    requires Answered(calls, results) && k < |calls| && ResultsPicked(calls, k, results, picked, from)
    ensures |picked| == |calls| - 1
  {
    PickedAtLeast(calls, k, results, picked, from);
    PickedAtMost(calls, k, results, picked, from);
  }

  lemma OtherIsPicked(calls: seq<Call>, k: nat, results: seq<Message>, picked: seq<Message>, from: seq<nat>, id: string)
    requires Answered(calls, results) && ResultsPicked(calls, k, results, picked, from) && OtherCall(calls, k, id)
    ensures GivesId(picked, id)
  {
    var i :| 0 <= i < |calls| && i != k && calls[i].id == Some(id);
    assert HasResult(calls[i], results);
    var j :| 0 <= j < |results| && ResultOf(calls[i], results[j]);
    assert ResultOfOther(calls, k, results[j]) && j in from;
    var p :| 0 <= p < |from| && from[p] == j;
    assert picked[p] == results[j];
  }

  lemma PickedAtLeast(calls: seq<Call>, k: nat, results: seq<Message>, picked: seq<Message>, from: seq<nat>)
    requires Answered(calls, results) && k < |calls| && ResultsPicked(calls, k, results, picked, from)
    ensures |picked| >= |calls| - 1
  {
    var others := calls[..k] + calls[k + 1..];
    OthersDistinct(calls, k);
    DistinctIdsSize(others);
    forall id | id in CallIds(others) ensures GivesId(picked, id) {
      ExternalIds(calls, k, id);
      OtherIsPicked(calls, k, results, picked, from, id);
    }
    IdsBound(picked, CallIds(others));
  }

  lemma OthersDistinct(calls: seq<Call>, k: nat)
    requires Named(calls) && DistinctIds(calls) && k < |calls|
    ensures Named(calls[..k] + calls[k + 1..]) && DistinctIds(calls[..k] + calls[k + 1..])
  {
    var others := calls[..k] + calls[k + 1..];
    forall i, j | 0 <= i < j < |others| ensures others[i].id != others[j].id {
      assert others[i] == calls[if i < k then i else i + 1] && others[j] == calls[if j < k then j else j + 1];
    }
  }

  lemma PickedAtMost(calls: seq<Call>, k: nat, results: seq<Message>, picked: seq<Message>, from: seq<nat>)
    requires Answered(calls, results) && k < |calls| && ResultsPicked(calls, k, results, picked, from)
    ensures |picked| <= |calls| - 1
  {
    assert HasResult(calls[k], results);
    var own :| 0 <= own < |results| && ResultOf(calls[k], results[own]);
    OwnIsNoOther(calls, k, results[own].callId);
    assert own !in from;
    RisingMissing(from, |results|, own);
  }

  lemma OwnIsNoOther(calls: seq<Call>, k: nat, id: string)
    requires DistinctIds(calls) && k < |calls| && calls[k].id == Some(id)
    ensures !OtherCall(calls, k, id)
  {
    forall i | 0 <= i < |calls| && i != k ensures calls[i].id != Some(id) {
      if i < k { assert calls[i].id != calls[k].id; } else { assert calls[k].id != calls[i].id; }
    }
  }

  lemma {:induction false} RisingBelow(at: seq<nat>, n: nat)
    requires Rising(at) && forall i :: 0 <= i < |at| ==> at[i] < n
    ensures |at| <= n
  {
    if at != [] {
      var last := |at| - 1;
      forall i | 0 <= i < last ensures at[..last][i] < n - 1 { assert at[i] < at[last]; }
      assert at[last] < n;
      RisingBelow(at[..last], n - 1);
    }
  }

  lemma {:induction false} RisingMissing(at: seq<nat>, n: nat, own: nat)
    requires Rising(at) && own < n && own !in at && forall i :: 0 <= i < |at| ==> at[i] < n
    ensures |at| <= n - 1
  {
    if at != [] {
      var last := |at| - 1;
      forall i | 0 <= i < last ensures at[..last][i] < at[last] { assert at[i] < at[last]; }
      if at[last] < own { RisingBelow(at, own); } else { RisingMissing(at[..last], at[last], own); }
    }
  }

  lemma GivenShape(messages: seq<Message>, at: nat, k: nat, picked: seq<Message>)
    requires at < |messages| && messages[at].Assistant? && k < |messages[at].calls| && |messages[at].calls| > 1
    requires PicksResults(messages[at].calls, k, messages[at + 1..], picked) && |picked| == |messages[at].calls| - 1
    ensures var calls := messages[at].calls;
      GivenFor(messages, at, k, messages[..at] + [Assistant("", calls[..k] + calls[k + 1..], false, false)] + picked)
  {
    var calls := messages[at].calls;
    var given := messages[..at] + [Assistant("", calls[..k] + calls[k + 1..], false, false)] + picked;
    assert given[at + 1..] == picked && given[..at] == messages[..at];
  }

  // ----- exactly when the exit streams -----

  /** The exit conditions for a terminal stream. */
  ghost predicate MayStream(ctx: Context, tools: Tools, messages: seq<Message>) {
    || (exists at: nat :: DirectExit(ctx, messages, at))
    || (exists at: nat, k: nat :: ControlExit(ctx, tools, messages, at, k))
  }

  lemma BatchExitJumps(ctx: Context, tools: Tools, messages: seq<Message>, at: nat)
    requires BatchExit(ctx, tools, messages, at)
    ensures ExitDecision(ctx, tools, messages).JumpToModel?
  {
    LastIsLast(messages, at);
    AnsweredIsResolved(messages[at].calls, messages[at + 1..]);
    ControlsEmpty(messages[at].calls);
    KeepsAll(messages[at].calls);
  }

  lemma JumpIsBatch(ctx: Context, tools: Tools, messages: seq<Message>)
    requires ExitDecision(ctx, tools, messages).JumpToModel?
    ensures exists at: nat :: BatchExit(ctx, tools, messages, at)
  {
    var at := LastAssistant(messages).value;
    var calls := messages[at].calls;
    ControlsEmpty(calls);
    KeepsAll(calls);
    ResolvedIsAnswered(calls, messages[at + 1..]);
    assert BatchExit(ctx, tools, messages, at);
  }

  lemma StreamMeets(ctx: Context, tools: Tools, messages: seq<Message>)
    requires ExitDecision(ctx, tools, messages).Stream?
    ensures MayStream(ctx, tools, messages)
    ensures StreamInput(ctx, tools, messages, ExitDecision(ctx, tools, messages).messages)
  {
    var at := LastAssistant(messages).value;
    var calls := messages[at].calls;
    if calls == [] {
      assert DirectExit(ctx, messages, at);
      DirectExitStreams(ctx, tools, messages, at);
    } else {
      ControlsEmpty(calls);
      ResolvedIsAnswered(calls, messages[at + 1..]);
      var k := OneControlPlace(calls);
      OneControl(calls, k);
      OthersAre(tools, calls, k);
      assert ControlExit(ctx, tools, messages, at, k);
      ControlExitStreams(ctx, tools, messages, at, k);
    }
  }

  /**
    The exit hook: done once the answer exists; back to the model exactly after a batch that may end the run;
    a terminal stream exactly under the exit conditions, and then with exactly the projected history.
  */
  lemma ExitIff(ctx: Context, tools: Tools, messages: seq<Message>)
    ensures var e := ExitDecision(ctx, tools, messages);
      && (e.Answered? <==> ctx.finalText.Some?)
      && (e.JumpToModel? <==> exists at: nat :: BatchExit(ctx, tools, messages, at))
      && (e.Stream? <==> MayStream(ctx, tools, messages))
      && (e.Stream? ==> StreamInput(ctx, tools, messages, e.messages))
  {
    var e := ExitDecision(ctx, tools, messages);
    if e.JumpToModel? { JumpIsBatch(ctx, tools, messages); }
    if e.Stream? { StreamMeets(ctx, tools, messages); }
    if at: nat :| BatchExit(ctx, tools, messages, at) { BatchExitJumps(ctx, tools, messages, at); }
    if at: nat :| DirectExit(ctx, messages, at) { DirectExitStreams(ctx, tools, messages, at); }
    if at: nat, k: nat :| ControlExit(ctx, tools, messages, at, k) { ControlExitStreams(ctx, tools, messages, at, k); }
  }

  // ----- in the graph -----

  /** A step that begins a terminal stream. */
  ghost predicate BeginsStream(tools: Tools, g: Graph, step: GraphStep) {
    && !g.failed
    && ((step.DirectBegins? && tools.visible == {} && g.ctx.finalText.None?)
        || (step.ExitHook? && MayStream(g.ctx, tools, g.history)))
  }

  /** What it gives the stream: the whole history of a run without tools, else the projected history. */
  ghost predicate GivenBy(tools: Tools, g: Graph, step: GraphStep, given: seq<Message>) {
    BeginsStream(tools, g, step) && (if step.DirectBegins? then given == g.history else StreamInput(g.ctx, tools, g.history, given))
  }

  /** Exactly these steps give a list to a terminal stream, one each. */
  lemma GivenExactlyThen(tools: Tools, g: Graph, step: GraphStep)
    ensures var next := GraphNext(tools, g, step);
      if BeginsStream(tools, g, step)
      then |next.given| == |g.given| + 1 && g.given <= next.given && GivenBy(tools, g, step, next.given[|g.given|])
      else next.given == g.given
  {
    if step.ExitHook? { ExitIff(g.ctx, tools, g.history); }
  }

  /** Every list a terminal stream was given is the one its step was to give, from the history at that moment. */
  lemma {:induction false} GivenIsProjection(tools: Tools, conversation: seq<Message>, steps: seq<GraphStep>, i: nat)
    returns (n: nat)
    requires i < |GraphTrace(tools, conversation, steps).given|
    ensures n < |steps|
    ensures var g := GraphTrace(tools, conversation, steps[..n]);
      |g.given| == i && GivenBy(tools, g, steps[n], GraphTrace(tools, conversation, steps).given[i])
  {
    var last := |steps| - 1;
    var before := GraphTrace(tools, conversation, steps[..last]);
    GivenExactlyThen(tools, before, steps[last]);
    if i < |before.given| {
      n := GivenIsProjection(tools, conversation, steps[..last], i);
      assert steps[..last][..n] == steps[..n];
    } else {
      n := last;
    }
  }
}
