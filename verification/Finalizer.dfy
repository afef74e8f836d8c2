/**
  The finalizer protocol (agent_runtime.py): the model, tool and exit hooks that share one private
  control call, and the graph that schedules them in any order.
*/
module Finalizer {
  import opened Common

  /** A requested call; an id or a name of the wrong type is absent. */
  datatype Call = Call(id: Option<string>, name: Option<string>, noArguments: bool)

  const CONTROL := "host__finalize_answer"

  predicate IsControl(c: Call) { c.name == Some(CONTROL) }

  /** `control` marks the result of the private control call. */
  datatype Message =
    | Human(text: string)
    | Assistant(text: string, calls: seq<Call>, invalidCalls: bool, otherSignal: bool)
    | ToolResult(callId: string, success: bool, text: string, control: bool)

  predicate HasToolSignal(m: Message) { m.Assistant? && (m.calls != [] || m.invalidCalls || m.otherSignal) }

  /** The tools of a run: the visible ids, and which of them may end a decision. */
  datatype Tools = Tools(visible: set<string>, terminal: set<string>)

  /** The fields the hooks share. */
  datatype Context = Context(finalText: Option<string>, requested: bool, pending: Option<string>, completed: Option<string>)

  const NEW_CONTEXT := Context(None, false, None, None)

  // ----- the model hook, after the provider answered -----

  function Controls(calls: seq<Call>): seq<Call> { Filter(calls, (c: Call) => IsControl(c)) }

  function Externals(calls: seq<Call>): seq<Call> { Filter(calls, (c: Call) => !IsControl(c)) }

  predicate Named(calls: seq<Call>) { forall i :: 0 <= i < |calls| ==> calls[i].id.Some? && calls[i].id.value != "" }

  predicate DistinctIds(calls: seq<Call>) {
    forall i, j :: 0 <= i < j < |calls| ==> calls[i].id != calls[j].id
  }

  predicate TerminalTool(tools: Tools, c: Call) {
    c.name.Some? && c.name.value in tools.visible && c.name.value in tools.terminal
  }

  predicate AllTerminal(tools: Tools, calls: seq<Call>) {
    forall i :: 0 <= i < |calls| ==> TerminalTool(tools, calls[i])
  }

  /** The conditions under which a decision's control call is accepted. */
  predicate SignalValid(ctx: Context, tools: Tools, m: Message)
    requires m.Assistant? && Controls(m.calls) != []
  {
    && |Controls(m.calls)| == 1 && Named(m.calls) && DistinctIds(m.calls)
    && Controls(m.calls)[0].noArguments && Blank(m.text) && !m.invalidCalls
    && ctx.pending.None? && ctx.completed.None?
    && AllTerminal(tools, Externals(m.calls))
  }

  /** What the model hook makes of a provider response; `ledgerAccepts` is the policy ledger's answer. */
  function Decide(ctx: Context, tools: Tools, response: seq<Message>, structured: bool,
                  ledgerAccepts: bool): Result<Context, string> {
    if |response| != 1 || !response[0].Assistant? then Err("model_response_invalid")
    else if structured then Err("finalizer_structured_response_unsupported")
    else
      var m := response[0];
      if Controls(m.calls) != [] then
        if !SignalValid(ctx, tools, m) then Err("finalizer_signal_invalid")
        else if Externals(m.calls) != [] && !ledgerAccepts then Err("policy")
        else Ok(ctx.(pending := Controls(m.calls)[0].id))
      else if m.calls == [] && HasToolSignal(m) then Err("terminal_tool_signal_invalid")
      else if m.calls == [] && Blank(m.text) then Err("finalizer_signal_required")
      else if !ledgerAccepts then Err("policy")
      else Ok(ctx)
  }

  // ----- the tool hook for the control call -----

  predicate ControlAdmitted(ctx: Context, callId: string, noArguments: bool) {
    noArguments && ctx.pending == Some(callId) && ctx.completed.None?
  }

  function ControlDone(ctx: Context, callId: string): Context { ctx.(pending := None, completed := Some(callId)) }

  // ----- the exit hook, before it streams -----

  datatype Exit = Answered | JumpToModel | Refused | Stream(messages: seq<Message>)

  function LastAssistant(messages: seq<Message>): (r: Option<nat>)
    ensures r.Some? ==> r.value < |messages| && messages[r.value].Assistant?
    ensures r.Some? ==> forall i :: r.value < i < |messages| ==> !messages[i].Assistant?
    ensures r.None? ==> forall i :: 0 <= i < |messages| ==> !messages[i].Assistant?
  {
    if messages == [] then None
    else if messages[|messages| - 1].Assistant? then Some(|messages| - 1)
    else LastAssistant(messages[..|messages| - 1])
  }

  function CallIds(calls: seq<Call>): set<string> {
    set i | 0 <= i < |calls| && calls[i].id.Some? :: calls[i].id.value
  }

  function ResultIds(results: seq<Message>): set<string> {
    set i | 0 <= i < |results| && results[i].ToolResult? :: results[i].callId
  }

  /** Every call of the decision has exactly one successful result. */
  predicate Resolved(calls: seq<Call>, results: seq<Message>) {
    && Named(calls) && DistinctIds(calls) && |results| == |calls|
    && (forall i :: 0 <= i < |results| ==> results[i].ToolResult? && results[i].success)
    && ResultIds(results) == CallIds(calls)
  }

  function ExternalResults(results: seq<Message>, ids: set<string>): seq<Message> {
    Filter(results, (m: Message) => m.ToolResult? && m.callId in ids)
  }

  function ExitDecision(ctx: Context, tools: Tools, messages: seq<Message>): Exit {
    if ctx.finalText.Some? then Answered
    else if ctx.pending.Some? || !ctx.requested || LastAssistant(messages).None? then Refused
    else
      var at := LastAssistant(messages).value;
      var decision, results := messages[at], messages[at + 1..];
      if decision.calls == [] then
        if results != [] || HasToolSignal(decision) || Blank(decision.text) || ctx.completed.Some? then Refused
        else Stream(messages[..at])
      else if !Resolved(decision.calls, results) then Refused
      else
        var controls, externals := Controls(decision.calls), Externals(decision.calls);
        var terminalBatch := externals != [] && AllTerminal(tools, externals);
        if controls == [] then
          if !terminalBatch || ctx.completed.Some? then Refused else JumpToModel
        else if |controls| != 1 || (externals != [] && !terminalBatch) || ctx.completed != controls[0].id then Refused
        else if externals == [] then Stream(messages[..at])
        else Stream(messages[..at] + [Assistant("", externals, false, false)] + ExternalResults(results, CallIds(externals)))
  }

  /** The shared fields as the hooks update them between their awaits. */
  class RuntimeContext {
    var finalText: Option<string>
    var requested: bool
    var pending: Option<string>
    var completed: Option<string>
    const tools: Tools

    function Fields(): Context
      reads this
    {
      Context(finalText, requested, pending, completed)
    }

    constructor (tools: Tools)
      ensures Fields() == NEW_CONTEXT && this.tools == tools
    {
      this.tools := tools;
      finalText, requested, pending, completed := None, false, None, None;
    }

    /** apply_model_policy before the provider is asked, with tools visible. */
    method AskModel()
      modifies this`requested
      ensures Fields() == old(Fields()).(requested := true)
    {
      requested := true;
    }

    /** apply_model_policy once the provider answered. */
    method AcceptResponse(response: seq<Message>, structured: bool, ledgerAccepts: bool) returns (error: Option<string>)
      modifies this`pending
      ensures var d := Decide(old(Fields()), tools, response, structured, ledgerAccepts);
        if d.Err? then error == Some(d.error) && Fields() == old(Fields()) else error == None && Fields() == d.value
    {
      if |response| != 1 || !response[0].Assistant? { return Some("model_response_invalid"); }
      if structured { return Some("finalizer_structured_response_unsupported"); }
      var m := response[0];
      var controls, externals := Controls(m.calls), Externals(m.calls);
      if controls != [] {
        if |controls| != 1 || !Named(m.calls) || !DistinctIds(m.calls) || !controls[0].noArguments || !Blank(m.text)
           || m.invalidCalls || pending.Some? || completed.Some? {
          return Some("finalizer_signal_invalid");
        }
        for i := 0 to |externals|
          invariant forall j :: 0 <= j < i ==> TerminalTool(tools, externals[j])
        {
          if !TerminalTool(tools, externals[i]) { return Some("finalizer_signal_invalid"); }
        }
        if externals != [] && !ledgerAccepts { return Some("policy"); }
        pending := controls[0].id;
        return None;
      }
      if m.calls == [] {
        if HasToolSignal(m) { return Some("terminal_tool_signal_invalid"); }
        if Blank(m.text) { return Some("finalizer_signal_required"); }
      }
      error := if ledgerAccepts then None else Some("policy");
    }

    /** apply_tool_policy once the control handler returned its exact result. */
    method CompleteControl(callId: string)
      modifies this`pending, this`completed
      ensures Fields() == ControlDone(old(Fields()), callId)
    {
      pending := None;
      completed := Some(callId);
    }

    /** The end of a terminal stream. */
    method SetFinalText(text: string)
      modifies this`finalText
      ensures Fields() == old(Fields()).(finalText := Some(text))
    {
      finalText := Some(text);
    }
  }
}
