/**
  That the parts which are proved safe also do their work: queued events get stored, a whole connection delivers
  everything that is left, and what arrives at the page is shown.
*/
module Progress {
  import opened Common
  import opened RunRecords
  import opened PolicyLedger
  import opened Budgets
  import opened EventView
  import opened Sse
  import ToolPipeline
  import Delivery
  import ClientView
  import Projection

  // ----- the queue of one run -----

  /** Take and confirm, as often as there are queued events. */
  function Draining(n: nat): seq<ToolPipeline.PipeStep> {
    if n == 0 then [] else [ToolPipeline.Take, ToolPipeline.Confirm] + Draining(n - 1)
  }

  lemma {:induction false} RunConcat(limits: PolicyLimits, reg: Registry, a: seq<ToolPipeline.PipeStep>,
                                     b: seq<ToolPipeline.PipeStep>)
    requires |b| == 2
    ensures ToolPipeline.Run(limits, reg, a + b) ==
      ToolPipeline.Advance(limits, reg, ToolPipeline.Advance(limits, reg, ToolPipeline.Run(limits, reg, a), b[0]), b[1])
  {
    var all := a + b;
    assert all[..|all| - 1] == a + [b[0]] && (a + [b[0]])[..|a|] == a;
  }

  /** The event at the head of the queue is stored by the next take and its confirmation. */
  lemma HeadIsStored(limits: PolicyLimits, reg: Registry, steps: seq<ToolPipeline.PipeStep>)
    requires var s := ToolPipeline.Run(limits, reg, steps); s.inflight.None? && s.queue != []
    ensures var s := ToolPipeline.Run(limits, reg, steps);
      var t := ToolPipeline.Run(limits, reg, steps + [ToolPipeline.Take, ToolPipeline.Confirm]);
      t.log == s.log + [s.queue[0]] && t.queue == s.queue[1..] && t.inflight.None? && t.phase == s.phase && !t.rejected
  {
    var s := ToolPipeline.Run(limits, reg, steps);
    ToolPipeline.RunInv(limits, reg, steps);
    RunConcat(limits, reg, steps, [ToolPipeline.Take, ToolPipeline.Confirm]);
    HeadStep(limits, reg, s);
  }

  lemma HeadStep(limits: PolicyLimits, reg: Registry, s: ToolPipeline.Pipe)
    requires ToolPipeline.PipeInv(s) && s.inflight.None? && s.queue != []
    ensures var t := ToolPipeline.Advance(limits, reg, ToolPipeline.Advance(limits, reg, s, ToolPipeline.Take), ToolPipeline.Confirm);
      t.log == s.log + [s.queue[0]] && t.queue == s.queue[1..] && t.inflight.None? && t.phase == s.phase && !t.rejected
  {
    var e := ToolPipeline.Emitted(s);
    assert e[|s.log|] == s.queue[0];
    ToolPipeline.HeadValid(ToolPipeline.ToolsOf(s.l), s.phase, s.owner, e, s.log);
    assert ValidateEvent(s.l, s.queue[0]).None?;
  }

  ghost predicate Drained(before: ToolPipeline.Pipe, after: ToolPipeline.Pipe) {
    && after.log == before.log + before.queue && after.queue == [] && after.inflight.None?
    && after.phase == before.phase && !after.rejected
  }

  lemma DrainedFurther(before: ToolPipeline.Pipe, mid: ToolPipeline.Pipe, after: ToolPipeline.Pipe)
    requires before.queue != [] && mid.log == before.log + [before.queue[0]] && mid.queue == before.queue[1..]
    requires mid.phase == before.phase && Drained(mid, after)
    ensures Drained(before, after)
  {
    assert before.log + before.queue == before.log + [before.queue[0]] + before.queue[1..];
  }

  lemma DrainingStep(steps: seq<ToolPipeline.PipeStep>, n: nat)
    requires n > 0
    ensures steps + Draining(n) == (steps + [ToolPipeline.Take, ToolPipeline.Confirm]) + Draining(n - 1)
  {}

  /** Left alone, the consumer stores everything that was queued, in its order. */
  lemma {:induction false} QueueDrains(limits: PolicyLimits, reg: Registry, steps: seq<ToolPipeline.PipeStep>, n: nat)
    requires ToolPipeline.Run(limits, reg, steps).inflight.None? && n == |ToolPipeline.Run(limits, reg, steps).queue|
    ensures Drained(ToolPipeline.Run(limits, reg, steps), ToolPipeline.Run(limits, reg, steps + Draining(n)))
    decreases n
  {
    if n == 0 {
      assert steps + Draining(0) == steps;
      ToolPipeline.RunInv(limits, reg, steps);
    } else {
      var two := steps + [ToolPipeline.Take, ToolPipeline.Confirm];
      HeadIsStored(limits, reg, steps);
      QueueDrains(limits, reg, two, n - 1);
      DrainingStep(steps, n);
      DrainedFurther(ToolPipeline.Run(limits, reg, steps), ToolPipeline.Run(limits, reg, two),
                     ToolPipeline.Run(limits, reg, steps + Draining(n)));
    }
  }

  // ----- the reconnecting reader -----

  /** A connection that is neither refused nor given up. */
  predicate GoesOn(a: Delivery.Attempt) { !a.abortedBefore && !a.abortedAfter && !a.answer.Rejected? }

  /** A connection that serves everything after the cursor it is asked for. */
  ghost predicate ServesAll(a: Delivery.Attempt, w: Publication, log: seq<EventRow>) {
    a.answer.Body? && forall c: nat :: c <= |log| ==> a.answer.serve(c) == PublishAll(w, log[c..])
  }

  /** A log that ends with its only terminal event. */
  ghost predicate EndedLog(log: seq<EventRow>) {
    && (forall i :: 0 <= i < |log| ==> log[i].seqNo == i + 1)
    && log != [] && (forall i :: 0 <= i < |log| ==> (log[i].payload.Terminal() <==> i == |log| - 1))
  }

  lemma EndsAtEnd(w: Publication, log: seq<EventRow>, a: nat, b: nat)
    requires EndedLog(log) && a <= b <= |log|
    ensures Delivery.EndsRun(PublishAll(w, log[a..b])) <==> a < b && b == |log|
  {
    if a < b {
      LastPublished(w, log[a..b]);
      PublishedEnds(w, log[b - 1]);
    }
  }

  lemma LastPublished(w: Publication, events: seq<EventRow>)
    requires events != []
    ensures Delivery.EndsRun(PublishAll(w, events)) <==> Delivery.TerminalKind(Publish(w, events[|events| - 1]).kind)
  {}

  lemma PublishedEnds(w: Publication, e: EventRow)
    ensures Delivery.TerminalKind(Publish(w, e).kind) <==> e.payload.Terminal()
  {}

  lemma SessionOfBody(runId: string, cursor: nat, attempts: seq<Delivery.Attempt>, events: seq<ProductEvent>, next: nat)
    requires attempts != [] && GoesOn(attempts[0]) && attempts[0].answer.Body?
    requires events == Delivery.Accepted(runId, cursor, attempts[0].answer.serve(cursor))
    requires next == Delivery.LastSeq(cursor, events)
    ensures var rest := Delivery.Session(runId, next, attempts[1..]);
      Delivery.Session(runId, cursor, attempts) ==
        if !attempts[0].answer.broken && Delivery.EndsRun(events) then Delivery.Progress(events, next, Delivery.Ended)
        else rest.(delivered := events + rest.delivered)
  {}

  /** What one connection that goes on contributes: it ends the reader, or the rest is left to the others. */
  lemma BodyThen(w: Publication, log: seq<EventRow>, cursor: nat, attempts: seq<Delivery.Attempt>) returns (next: nat)
    requires EndedLog(log) && cursor <= |log| && attempts != [] && GoesOn(attempts[0])
    requires attempts[0].answer.Body? && Delivery.ServesLog(attempts[0].answer.serve, w, log)
    ensures cursor <= next <= |log| && (ServesAll(attempts[0], w, log) ==> next == |log|)
    ensures var s, rest := Delivery.Session(w.run, cursor, attempts), Delivery.Session(w.run, next, attempts[1..]);
      if !attempts[0].answer.broken && cursor < next == |log|
      then s == Delivery.Progress(PublishAll(w, log[cursor..]), |log|, Delivery.Ended)
      else s == rest.(delivered := PublishAll(w, log[cursor..next]) + rest.delivered)
  {
    var serve := attempts[0].answer.serve;
    next := cursor + |serve(cursor)|;
    Delivery.BodyDelivers(w, log, cursor, serve);
    EndsAtEnd(w, log, cursor, next);
    SessionOfBody(w.run, cursor, attempts, PublishAll(w, log[cursor..next]), next);
    assert log[cursor..|log|] == log[cursor..];
  }

  /**
    If the connections up to one that serves everything are neither refused nor given up, the reader delivers the
    whole rest of the log; and if none of them breaks off, it ends by itself on the terminal event.
  */
  lemma {:induction false} ReaderDeliversAll(w: Publication, log: seq<EventRow>, cursor: nat,
                                             attempts: seq<Delivery.Attempt>, n: nat)
    requires EndedLog(log) && cursor <= |log| && Delivery.Genuine(attempts, w, log) && n < |attempts|
    requires (forall i :: 0 <= i <= n ==> GoesOn(attempts[i])) && ServesAll(attempts[n], w, log)
    ensures var s := Delivery.Session(w.run, cursor, attempts);
      s.delivered == PublishAll(w, log[cursor..]) && s.afterSeq == |log|
    ensures cursor < |log| && (forall i :: 0 <= i <= n && attempts[i].answer.Body? ==> !attempts[i].answer.broken) ==>
      Delivery.Session(w.run, cursor, attempts).close.Ended?
    decreases |attempts|
  {
    var a, rest := attempts[0], attempts[1..];
    assert GoesOn(a);
    assert forall i :: 0 <= i < |rest| ==> rest[i] == attempts[i + 1];
    if a.answer.Down? {
      ReaderDeliversAll(w, log, cursor, rest, n - 1);
    } else {
      var next := BodyThen(w, log, cursor, attempts);
      if a.answer.broken || !(cursor < next == |log|) {
        RestDelivers(w, log, next, attempts, n);
        Delivery.JoinPublished(w, log, cursor, next, |log|);
        assert log[next..|log|] == log[next..] && log[cursor..|log|] == log[cursor..];
      }
    }
  }

  lemma RestDelivers(w: Publication, log: seq<EventRow>, next: nat, attempts: seq<Delivery.Attempt>, n: nat)
    requires EndedLog(log) && next <= |log| && Delivery.Genuine(attempts, w, log) && n < |attempts|
    requires (forall i :: 0 <= i <= n ==> GoesOn(attempts[i])) && ServesAll(attempts[n], w, log)
    requires n == 0 ==> next == |log|
    ensures var s := Delivery.Session(w.run, next, attempts[1..]);
      s.delivered == PublishAll(w, log[next..]) && s.afterSeq == |log|
    ensures next < |log| && (forall i :: 0 <= i <= n && attempts[i].answer.Body? ==> !attempts[i].answer.broken) ==>
      Delivery.Session(w.run, next, attempts[1..]).close.Ended?
    decreases |attempts|, 0
  {
    var rest := attempts[1..];
    assert forall i :: 0 <= i < |rest| ==> rest[i] == attempts[i + 1];
    if n > 0 {
      ReaderDeliversAll(w, log, next, rest, n - 1);
    } else {
      Delivery.ExactlyOnceInOrder(w, log, next, rest);
      assert log[|log|..|log|] == [] && log[|log|..] == [];
    }
  }

  // ----- the page -----

  /** The next event of an open stream is shown at the next render, whatever is waiting already. */
  lemma NextEventIsShown(w: Publication, row: RunRow, steps: seq<ClientView.ClientStep>, i: nat)
    requires RowInv(row) && ClientView.Genuine(steps, row.events) && i < |row.events|
    requires var c := ClientView.ClientTrace(w, row.events, steps); c.stream.Some? && c.stream.value.cursor == i
    ensures var c := ClientView.ClientTrace(w, row.events, steps + [ClientView.Arrives(i), ClientView.RenderTimer]);
      c.entry.Some? && c.entry.value.lastSeq >= i + 1
  {
    var log := row.events;
    ClientView.RowHasWholeLog(row);
    ClientView.ClientTraceInv(w, log, steps);
    var c := ClientView.ClientTrace(w, log, steps);
    ArrivedIsNext(c, w, log, i);
    TwoMore(w, log, steps, ClientView.Arrives(i), ClientView.RenderTimer);
    RenderShows(ClientView.ClientNext(w, log, c, ClientView.Arrives(i)), w, log);
  }

  lemma TwoMore(w: Publication, log: seq<EventRow>, steps: seq<ClientView.ClientStep>, a: ClientView.ClientStep,
                b: ClientView.ClientStep)
    ensures ClientView.ClientTrace(w, log, steps + [a, b]) ==
      ClientView.ClientNext(w, log, ClientView.ClientNext(w, log, ClientView.ClientTrace(w, log, steps), a), b)
  {
    var all := steps + [a, b];
    assert all[..|all| - 1] == steps + [a] && (steps + [a])[..|steps|] == steps;
  }

  lemma RenderShows(c: ClientView.Client, w: Publication, log: seq<EventRow>)
    requires ClientView.ClientInv(c, w, log) && ClientView.WholeLog(log) && c.stream.Some?
    ensures var next := ClientView.ClientNext(w, log, c, ClientView.RenderTimer);
      next.entry.Some? && next.entry.value.lastSeq >= c.stream.value.cursor
  {
    ClientView.FlushKeeps(c, w, log);
  }

  lemma ArrivedIsNext(c: ClientView.Client, w: Publication, log: seq<EventRow>, i: nat)
    requires ClientView.ClientInv(c, w, log) && ClientView.WholeLog(log) && i < |log|
    requires c.stream.Some? && c.stream.value.cursor == i
    ensures var next := ClientView.ClientNext(w, log, c, ClientView.Arrives(i));
      && ClientView.ClientInv(next, w, log) && next.entry.Some? && next.stream.Some? && next.stream.value.cursor == i + 1
  {
    ClientView.ArrivalKeeps(c, w, log, i);
    ClientView.PublishedHead(w, log[i]);
  }
}
