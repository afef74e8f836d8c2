/** Stored event rows as the public events a client receives (repository.py event view, schemas.py payloads). */
module EventView {
  import opened Common
  import opened RunRecords
  import Json
  import opened Sse

  /** The identities and renderings of one run's events that the row model leaves out. */
  datatype Publication = Publication(
    run: string, thread: string, messageId: string, messageAt: string,
    eventId: nat -> string, occurredAt: nat -> string, usage: RunUsage -> Json.Value)

  function KindOf(p: Payload): string {
    match p
    case RunStarted => "run.started"
    case ToolStarted(_, _, _, _) => "tool.started"
    case ToolFinished(_, _, _, _) => "tool.finished"
    case MessageDelta(_) => "message.delta"
    case SourceAdded(_, _, _) => "source.added"
    case MessageCompleted(_) => "message.completed"
    case RunCompleted(_) => "run.completed"
    case RunFailed(_, _) => "run.failed"
    case RunCancelled(_) => "run.cancelled"
  }

  function Text(name: string, s: string): Json.Field { Json.Field(name, Json.Str(s)) }

  /** A failure code of the first contract version is shown under its present name. */
  function PublicCode(code: string): string {
    if code == "agent_result_missing" then "agent_execution_failed" else code
  }

  function DataOfPayload(w: Publication, p: Payload): (r: Json.Value)
    ensures r.Obj?
  {
    match p
    case RunStarted => Json.Obj([Text("status", "running")])
    case ToolStarted(id, name, title, summary) =>
      Json.Obj([Text("tool_call_id", id), Text("name", name), Text("label", title)] +
               (if summary.Some? then [Text("input_summary", summary.value)] else []))
    case ToolFinished(id, name, title, result) =>
      Json.Obj([Text("tool_call_id", id), Text("name", name), Text("label", title), Text("output_summary", result)])
    case MessageDelta(delta) => Json.Obj([Text("delta", delta)])
    case SourceAdded(id, title, description) =>
      Json.Obj([Text("source_id", id), Text("label", title), Text("description", description)])
    case MessageCompleted(content) =>
      Json.Obj([Json.Field("message", Json.Obj([
        Text("message_id", w.messageId), Text("role", "assistant"), Text("content", content),
        Text("created_at", w.messageAt), Text("run_id", w.run)]))])
    case RunCompleted(usage) => Json.Obj([Text("status", "completed"), Json.Field("usage", (w.usage)(usage))])
    case RunFailed(code, usage) =>
      Json.Obj([Text("status", "failed"), Text("error_code", PublicCode(code)), Json.Field("usage", (w.usage)(usage))])
    case RunCancelled(usage) => Json.Obj([Text("status", "cancelled"), Json.Field("usage", (w.usage)(usage))])
  }

  function Publish(w: Publication, e: EventRow): ProductEvent {
    ProductEvent((w.eventId)(e.seqNo), w.run, w.thread, e.seqNo, KindOf(e.payload), (w.occurredAt)(e.seqNo), DataOfPayload(w, e.payload))
  }

  function PublishAll(w: Publication, events: seq<EventRow>): (r: seq<ProductEvent>)
    ensures |r| == |events| && forall i :: 0 <= i < |r| ==> r[i] == Publish(w, events[i])
  {
    seq(|events|, i requires 0 <= i < |events| => Publish(w, events[i]))
  }

  /** Every event of a numbered log can be printed as a frame the browser accepts. */
  lemma PublishedIsPrintable(w: Publication, row: RunRow, i: nat)
    requires Numbered(row) && i < |row.events|
    ensures Printable(Publish(w, row.events[i]))
  {
    PublishedPrintable(w, row.events[i]);
  }

  lemma PublishedPrintable(w: Publication, e: EventRow)
    requires e.seqNo >= 1
    ensures Printable(Publish(w, e))
  {}
}
