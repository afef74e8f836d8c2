/** Every schedule of the finalizer hooks: one control call, one final text, and a clean finalizer input. */
module FinalizerGraph {
  import opened Common
  import opened Finalizer

  /**
    `history` grows when a hook returns its message. The observers are `finals` (how often the
    final text was set), `overlapped` (a terminal stream began while another ran) and `given`
    (every message list a terminal stream received).
  */
  datatype Graph = Graph(
    ctx: Context, history: seq<Message>, controlsRunning: set<string>, streams: nat,
    finals: nat, overlapped: bool, given: seq<seq<Message>>, failed: bool)

  datatype GraphStep =
    | AskModel
    | ModelAnswers(response: seq<Message>, structured: bool, ledgerAccepts: bool)
    | DirectBegins
    | ExitHook
    | StreamEnds(text: string, accepted: bool)
    | ControlBegins(callId: string, noArguments: bool)
    | ControlEnds(callId: string, exact: bool)
    | ToolReturns(callId: string, success: bool, text: string)

  function BeginStream(g: Graph, messages: seq<Message>): Graph {
    g.(streams := g.streams + 1, overlapped := g.overlapped || g.streams > 0, given := g.given + [messages])
  }

  function GraphNext(tools: Tools, g: Graph, step: GraphStep): Graph {
    if g.failed then g
    else
      match step
      case AskModel => if tools.visible == {} then g else g.(ctx := g.ctx.(requested := true))
      case ModelAnswers(response, structured, accepts) =>
        if tools.visible == {} then g
        else
          var d := Decide(g.ctx, tools, response, structured, accepts);
          if d.Err? then g.(failed := true) else g.(ctx := d.value, history := g.history + response)
      case DirectBegins =>
        if tools.visible != {} then g
        else if g.ctx.finalText.Some? then g.(failed := true)
        else BeginStream(g, g.history)
      case ExitHook =>
        (match ExitDecision(g.ctx, tools, g.history)
         case Answered => g
         case JumpToModel => g
         case Refused => g.(failed := true)
         case Stream(messages) => BeginStream(g, messages))
      case StreamEnds(text, accepted) =>
        if g.streams == 0 then g
        else if !accepted then g.(failed := true)
        else g.(ctx := g.ctx.(finalText := Some(text)), streams := g.streams - 1, finals := g.finals + 1,
                history := g.history + [Assistant(text, [], false, false)])
      case ControlBegins(id, none) =>
        if ControlAdmitted(g.ctx, id, none) then g.(controlsRunning := g.controlsRunning + {id}) else g.(failed := true)
      case ControlEnds(id, exact) =>
        if id !in g.controlsRunning then g
        else if !exact then g.(failed := true)
        else g.(ctx := ControlDone(g.ctx, id), history := g.history + [ToolResult(id, true, "finalizer_ready", true)])
      case ToolReturns(id, success, text) => g.(history := g.history + [ToolResult(id, success, text, false)])
  }

  function GraphTrace(tools: Tools, conversation: seq<Message>, steps: seq<GraphStep>): Graph {
    if steps == [] then Graph(NEW_CONTEXT, conversation, {}, 0, 0, false, [], false)
    else GraphNext(tools, GraphTrace(tools, conversation, steps[..|steps| - 1]), steps[|steps| - 1])
  }

  /** The stored conversation a run starts from: plain questions and answers. */
  ghost predicate PlainConversation(messages: seq<Message>) {
    forall i :: 0 <= i < |messages| ==> messages[i].Human? || (messages[i].Assistant? && messages[i].calls == [])
  }

  // ----- the invariant -----

  /** A message that belongs to the control exchange. */
  predicate InControl(m: Message) {
    match m
    case Human(_) => false
    case Assistant(_, calls, _, _) => exists i :: 0 <= i < |calls| && IsControl(calls[i])
    case ToolResult(_, _, _, control) => control
  }

  predicate NoControl(messages: seq<Message>) { forall i :: 0 <= i < |messages| ==> !InControl(messages[i]) }

  /** The accepted control call, if any: the running or the completed one. */
  function Accepted(ctx: Context): Option<string> { if ctx.pending.Some? then ctx.pending else ctx.completed }

  /** Message `k` is the one decision that holds the control call `id`; nothing of the exchange comes before it. */
  ghost predicate HoldsControl(history: seq<Message>, k: nat, id: string) {
    && k < |history| && history[k].Assistant?
    && (forall i :: 0 <= i < k ==> !InControl(history[i]))
    && |Controls(history[k].calls)| == 1 && Controls(history[k].calls)[0].id == Some(id)
    && (forall i :: k < i < |history| && history[i].Assistant? ==> !InControl(history[i]))
    && (forall i :: k < i < |history| && history[i].ToolResult? && history[i].control ==> history[i].callId == id)
  }

  ghost predicate HistoryInv(ctx: Context, history: seq<Message>) {
    match Accepted(ctx)
    case None => NoControl(history)
    case Some(id) => exists k: nat :: HoldsControl(history, k, id)
  }

  ghost predicate GraphInv(tools: Tools, g: Graph) {
    && HistoryInv(g.ctx, g.history)
    && (g.ctx.pending.Some? ==> g.ctx.completed.None?)
    && (forall id :: id in g.controlsRunning ==> Accepted(g.ctx) == Some(id))
    && (tools.visible == {} ==> Accepted(g.ctx).None?)
    && (forall i :: 0 <= i < |g.given| ==> NoControl(g.given[i]))
    && (!g.overlapped ==> g.finals + g.streams <= 1 && (g.finals > 0 <==> g.ctx.finalText.Some?))
    && (g.overlapped && !g.failed ==> g.finals + g.streams >= 2)
  }

  lemma ControlsEmpty(calls: seq<Call>)
    ensures Controls(calls) == [] <==> forall i :: 0 <= i < |calls| ==> !IsControl(calls[i])
  {
    if Controls(calls) != [] {
      assert Controls(calls)[0] in Controls(calls);
    }
    forall i | 0 <= i < |calls| && IsControl(calls[i]) ensures Controls(calls) != [] {
      assert calls[i] in Controls(calls);
    }
  }

  /** A message outside the exchange changes nothing the invariant says of the history. */
  lemma AppendOther(ctx: Context, history: seq<Message>, m: Message)
    requires HistoryInv(ctx, history) && !InControl(m)
    ensures HistoryInv(ctx, history + [m])
  {
    if Accepted(ctx).Some? {
      var k: nat :| HoldsControl(history, k, Accepted(ctx).value);
      assert (history + [m])[..k] == history[..k];
      assert HoldsControl(history + [m], k, Accepted(ctx).value);
    }
  }

  lemma AcceptControl(tools: Tools, ctx: Context, history: seq<Message>, m: Message)
    requires HistoryInv(ctx, history) && m.Assistant? && Controls(m.calls) != [] && SignalValid(ctx, tools, m)
    ensures HistoryInv(ctx.(pending := Controls(m.calls)[0].id), history + [m])
  {
    var c := Controls(m.calls)[0];
    assert c in m.calls;
    assert (history + [m])[..|history|] == history;
    assert HoldsControl(history + [m], |history|, c.id.value);
  }

  lemma ControlResult(ctx: Context, history: seq<Message>, id: string)
    requires HistoryInv(ctx, history) && Accepted(ctx) == Some(id)
    ensures HistoryInv(ControlDone(ctx, id), history + [ToolResult(id, true, "finalizer_ready", true)])
  {
    var m := ToolResult(id, true, "finalizer_ready", true);
    var k: nat :| HoldsControl(history, k, id);
    assert (history + [m])[..k] == history[..k];
    assert HoldsControl(history + [m], k, id);
  }

  /** What the exit hook hands to the finalizer holds nothing of the control exchange. */
  lemma ExitIsClean(tools: Tools, ctx: Context, history: seq<Message>)
    requires HistoryInv(ctx, history) && ExitDecision(ctx, tools, history).Stream?
    ensures NoControl(ExitDecision(ctx, tools, history).messages)
  {
    var at := LastAssistant(history).value;
    var calls, results := history[at].calls, history[at + 1..];
    ControlsEmpty(calls);
    if calls == [] {
      assert Accepted(ctx).None?;
    } else {
      var id := ctx.completed.value;
      var k: nat :| HoldsControl(history, k, id);
      assert InControl(history[at]);
      assert at == k;
      if Externals(calls) != [] { ExternalPartIsClean(calls, results, id); }
    }
  }

  lemma ExternalPartIsClean(calls: seq<Call>, results: seq<Message>, id: string)
    requires DistinctIds(calls) && |Controls(calls)| == 1 && Controls(calls)[0].id == Some(id)
    requires forall i :: 0 <= i < |results| ==> results[i].ToolResult? && (results[i].control ==> results[i].callId == id)
    ensures NoControl([Assistant("", Externals(calls), false, false)])
    ensures NoControl(ExternalResults(results, CallIds(Externals(calls))))
  {
    assert id !in CallIds(Externals(calls)) by {
      if id in CallIds(Externals(calls)) {
        var i :| 0 <= i < |Externals(calls)| && Externals(calls)[i].id == Some(id);
        ExternalIsNotControl(calls, Externals(calls)[i], Controls(calls)[0]);
      }
    }
    var kept := ExternalResults(results, CallIds(Externals(calls)));
    forall i | 0 <= i < |kept| ensures !InControl(kept[i]) {
      assert kept[i] in kept;
      var j :| 0 <= j < |results| && results[j] == kept[i];
    }
    forall i | 0 <= i < |Externals(calls)| ensures !IsControl(Externals(calls)[i]) {
      assert Externals(calls)[i] in Externals(calls);
    }
  }

  lemma ExternalIsNotControl(calls: seq<Call>, a: Call, b: Call)
    requires DistinctIds(calls) && a in Externals(calls) && b in Controls(calls)
    ensures a.id != b.id
  {
    var i :| 0 <= i < |calls| && calls[i] == a;
    var j :| 0 <= j < |calls| && calls[j] == b;
    assert !IsControl(a) && IsControl(b);
    assert i != j;
    if i < j { assert calls[i].id != calls[j].id; } else { assert calls[j].id != calls[i].id; }
  }

  // ----- steps -----

  lemma AnswerKeeps(tools: Tools, g: Graph, response: seq<Message>, structured: bool, accepts: bool)
    requires GraphInv(tools, g) && !g.failed
    ensures GraphInv(tools, GraphNext(tools, g, ModelAnswers(response, structured, accepts)))
  {
    if tools.visible != {} && Decide(g.ctx, tools, response, structured, accepts).Ok? {
      var m := response[0];
      assert response == [m];
      ControlsEmpty(m.calls);
      if Controls(m.calls) != [] { AcceptControl(tools, g.ctx, g.history, m); } else { AppendOther(g.ctx, g.history, m); }
    }
  }

  lemma GivenKeeps(tools: Tools, g: Graph, messages: seq<Message>)
    requires GraphInv(tools, g) && NoControl(messages) && g.ctx.finalText.None?
    ensures GraphInv(tools, BeginStream(g, messages))
  {
    forall i | 0 <= i < |BeginStream(g, messages).given| ensures NoControl(BeginStream(g, messages).given[i]) {
      if i < |g.given| { assert NoControl(g.given[i]); }
    }
  }

  lemma StreamKeeps(tools: Tools, g: Graph, step: GraphStep)
    requires GraphInv(tools, g) && !g.failed && (step.DirectBegins? || step.ExitHook? || step.StreamEnds?)
    ensures GraphInv(tools, GraphNext(tools, g, step))
  {
    match step
    case DirectBegins =>
      if tools.visible == {} && g.ctx.finalText.None? { GivenKeeps(tools, g, g.history); }
    case ExitHook =>
      var exit := ExitDecision(g.ctx, tools, g.history);
      if exit.Stream? {
        ExitIsClean(tools, g.ctx, g.history);
        GivenKeeps(tools, g, exit.messages);
      }
    case StreamEnds(text, accepted) =>
      if g.streams > 0 && accepted {
        AppendOther(g.ctx, g.history, Assistant(text, [], false, false));
        FinalTextIsNoControl(g.ctx, g.history + [Assistant(text, [], false, false)], text);
      }
  }

  lemma FinalTextIsNoControl(ctx: Context, history: seq<Message>, text: string)
    requires HistoryInv(ctx, history)
    ensures HistoryInv(ctx.(finalText := Some(text)), history)
  {}

  lemma ControlStepKeeps(tools: Tools, g: Graph, step: GraphStep)
    requires GraphInv(tools, g) && !g.failed
    requires step.ControlBegins? || step.ControlEnds? || step.ToolReturns? || step.AskModel?
    ensures GraphInv(tools, GraphNext(tools, g, step))
  {
    match step
    case ControlEnds(id, exact) => if id in g.controlsRunning && exact { ControlResult(g.ctx, g.history, id); }
    case ToolReturns(id, success, text) => AppendOther(g.ctx, g.history, ToolResult(id, success, text, false));
    case _ =>
  }

  lemma GraphStepKeeps(tools: Tools, g: Graph, step: GraphStep)
    requires GraphInv(tools, g)
    ensures GraphInv(tools, GraphNext(tools, g, step))
  {
    if !g.failed {
      match step
      case ModelAnswers(response, structured, accepts) => AnswerKeeps(tools, g, response, structured, accepts);
      case DirectBegins => StreamKeeps(tools, g, step);
      case ExitHook => StreamKeeps(tools, g, step);
      case StreamEnds(_, _) => StreamKeeps(tools, g, step);
      case _ => ControlStepKeeps(tools, g, step);
    }
  }

  lemma {:induction false} GraphTraceInv(tools: Tools, conversation: seq<Message>, steps: seq<GraphStep>)
    requires PlainConversation(conversation)
    ensures GraphInv(tools, GraphTrace(tools, conversation, steps))
  {
    if steps != [] {
      GraphTraceInv(tools, conversation, steps[..|steps| - 1]);
      GraphStepKeeps(tools, GraphTrace(tools, conversation, steps[..|steps| - 1]), steps[|steps| - 1]);
    }
  }

  // ----- main results -----

  /** The history never holds two decisions with a control call, nor one decision with two. */
  lemma OneControlCall(tools: Tools, conversation: seq<Message>, steps: seq<GraphStep>, i: nat, j: nat)
    requires PlainConversation(conversation)
    requires var h := GraphTrace(tools, conversation, steps).history;
      i < |h| && j < |h| && h[i].Assistant? && h[j].Assistant? && InControl(h[i]) && InControl(h[j])
    ensures i == j && |Controls(GraphTrace(tools, conversation, steps).history[i].calls)| == 1
  {
    GraphTraceInv(tools, conversation, steps);
    var g := GraphTrace(tools, conversation, steps);
    var k: nat :| HoldsControl(g.history, k, Accepted(g.ctx).value);
    assert i == k && j == k;
  }

  /** No message list given to a terminal stream holds the control call or its result. */
  lemma FinalizerSeesNoControl(tools: Tools, conversation: seq<Message>, steps: seq<GraphStep>)
    requires PlainConversation(conversation)
    ensures forall i :: 0 <= i < |GraphTrace(tools, conversation, steps).given| ==> NoControl(GraphTrace(tools, conversation, steps).given[i])
  {
    GraphTraceInv(tools, conversation, steps);
  }

  /**
    In a run that did not fail and whose streams have ended, the final text was set at most once
    exactly if no terminal stream began while another ran.
  */
  lemma FinalTextSetOnceIff(tools: Tools, conversation: seq<Message>, steps: seq<GraphStep>)
    requires PlainConversation(conversation)
    requires !GraphTrace(tools, conversation, steps).failed && GraphTrace(tools, conversation, steps).streams == 0
    ensures var g := GraphTrace(tools, conversation, steps); g.finals <= 1 <==> !g.overlapped
  {
    GraphTraceInv(tools, conversation, steps);
  }

  /** Failed or not: as long as no two terminal streams overlap, the final text is set at most once. */
  lemma FinalTextSetOnce(tools: Tools, conversation: seq<Message>, steps: seq<GraphStep>)
    requires PlainConversation(conversation) && !GraphTrace(tools, conversation, steps).overlapped
    ensures var g := GraphTrace(tools, conversation, steps); g.finals <= 1 && (g.finals == 1 <==> g.ctx.finalText.Some?)
  {
    GraphTraceInv(tools, conversation, steps);
  }

  /** Overlapping terminal streams are the only exception, and a real one: two direct streams both set it. */
  lemma OverlapSetsTwice(conversation: seq<Message>)
    requires PlainConversation(conversation)
    ensures var g := GraphTrace(Tools({}, {}), conversation, [DirectBegins, DirectBegins, StreamEnds("a", true), StreamEnds("b", true)]);
      g.finals == 2 && g.ctx.finalText == Some("b")
  {
    var tools := Tools({}, {});
    var all := [DirectBegins, DirectBegins, StreamEnds("a", true), StreamEnds("b", true)];
    assert all[..3][..2] == all[..2] && all[..2][..1] == all[..1] && all[..1][..0] == [];
    var g1 := GraphTrace(tools, conversation, all[..1]);
    assert g1 == GraphNext(tools, GraphTrace(tools, conversation, []), DirectBegins);
    assert g1.streams == 1 && g1.ctx == NEW_CONTEXT && !g1.failed && g1.finals == 0;
    var g2 := GraphTrace(tools, conversation, all[..2]);
    assert g2 == GraphNext(tools, g1, DirectBegins);
    var g3 := GraphTrace(tools, conversation, all[..3]);
    assert g3 == GraphNext(tools, g2, StreamEnds("a", true));
    assert GraphTrace(tools, conversation, all) == GraphNext(tools, g3, StreamEnds("b", true));
  }
}
