/**
  Delivery of one run's log: the server's polling loop (service.py stream_events), which reads
  events and status at separate moments, and the browser's reconnecting reader (api.ts streamRunEvents).
*/
module Delivery {
  import opened Common
  import opened RunRecords
  import opened Sse
  import opened EventView

  // ----- the server loop -----

  /** One turn of the loop: the row when events are read, the row when the status is read, and the connection check. */
  datatype Poll = Poll(eventsAt: RunRow, statusAt: RunRow, disconnected: bool)

  datatype Ending = Finished | Disconnected | StillOpen

  /** Reads in time order: each sees a numbered log that extends the log of the read before. */
  ghost predicate InTimeOrder(polls: seq<Poll>) {
    forall i :: 0 <= i < |polls| ==> TurnInOrder(polls, i)
  }

  ghost predicate TurnInOrder(polls: seq<Poll>, i: nat)
    requires i < |polls|
  {
    && Numbered(polls[i].eventsAt) && Numbered(polls[i].statusAt) && polls[i].eventsAt.events <= polls[i].statusAt.events
    && (i > 0 ==> polls[i - 1].statusAt.events <= polls[i].eventsAt.events)
  }

  /** The part of a numbered log after a cursor. */
  function After(log: seq<EventRow>, cursor: nat): seq<EventRow> { if cursor <= |log| then log[cursor..] else [] }

  function Yielded(items: seq<Option<EventRow>>): seq<EventRow> {
    if items == [] then []
    else Yielded(items[..|items| - 1]) + (if items[|items| - 1].Some? then [items[|items| - 1].value] else [])
  }

  lemma YieldedAppend(items: seq<Option<EventRow>>, item: Option<EventRow>)
    ensures Yielded(items + [item]) == Yielded(items) + (if item.Some? then [item.value] else [])
  {
    assert (items + [item])[..|items|] == items;
  }

  /** The log the loop has read after some turns. */
  function Read(polls: seq<Poll>, turns: nat): seq<EventRow>
    requires turns <= |polls|
  {
    if turns == 0 then [] else polls[turns - 1].eventsAt.events
  }

  predicate Ends(poll: Poll, afterSeq: nat) {
    !poll.statusAt.status.Active() && poll.statusAt.lastSeq <= Max(|poll.eventsAt.events|, afterSeq)
  }

  lemma ReadGrows(polls: seq<Poll>, turns: nat)
    requires InTimeOrder(polls) && turns < |polls|
    ensures Read(polls, turns) <= polls[turns].eventsAt.events <= polls[turns].statusAt.events
    ensures Numbered(polls[turns].eventsAt) && Numbered(polls[turns].statusAt)
  {
    assert TurnInOrder(polls, turns);
    if turns > 0 { assert TurnInOrder(polls, turns - 1); }
  }

  /** What one fetch returns: the events between the cursor and the end of the log now. */
  lemma FetchedIsSuffix(log: seq<EventRow>, cursor: nat)
    requires forall i :: 0 <= i < |log| ==> log[i].seqNo == i + 1
    ensures EventsAfter(log, cursor) == After(log, cursor)
    ensures forall i :: 0 <= i < |After(log, cursor)| ==> After(log, cursor)[i].seqNo == cursor + i + 1
  {
    EventsAfterIsSuffix(log, cursor, 0);
  }

  function Max(a: nat, b: nat): nat { if a > b then a else b }

  lemma AfterJoin(a: seq<EventRow>, b: seq<EventRow>, afterSeq: nat)
    requires a <= b
    ensures After(a, afterSeq) + After(b, Max(|a|, afterSeq)) == After(b, afterSeq)
    ensures |After(b, Max(|a|, afterSeq))| == Max(|b|, afterSeq) - Max(|a|, afterSeq)
  {}

  /** One turn: what is fetched joins what was read before, and a finished run leaves nothing out. */
  lemma TurnFacts(polls: seq<Poll>, turns: nat, afterSeq: nat, cursor: nat)
    requires InTimeOrder(polls) && turns < |polls| && cursor == Max(|Read(polls, turns)|, afterSeq)
    ensures var log := polls[turns].eventsAt.events; var events := EventsAfter(log, cursor);
      && After(Read(polls, turns), afterSeq) + events == After(log, afterSeq)
      && cursor + |events| == Max(|log|, afterSeq)
      && (forall i :: 0 <= i < |events| ==> events[i].seqNo == cursor + i + 1)
      && (polls[turns].statusAt.lastSeq <= Max(|log|, afterSeq) ==> After(log, afterSeq) == After(polls[turns].statusAt.events, afterSeq))
  {
    var log := polls[turns].eventsAt.events;
    ReadGrows(polls, turns);
    FetchedIsSuffix(log, cursor);
    AfterJoin(Read(polls, turns), log, afterSeq);
  }

  /** None of the first turns ended the stream. */
  ghost predicate KeptOpen(polls: seq<Poll>, turns: nat, afterSeq: nat) {
    forall i :: 0 <= i < turns <= |polls| ==> !Ends(polls[i], afterSeq) && !polls[i].disconnected
  }

  /** Yield fetched events one by one; the cursor is the number of the last. */
  method YieldEach(yielded: seq<Option<EventRow>>, events: seq<EventRow>, cursor: nat)
    returns (items: seq<Option<EventRow>>, last: nat)
    requires forall i :: 0 <= i < |events| ==> events[i].seqNo == cursor + i + 1
    ensures Yielded(items) == Yielded(yielded) + events && last == cursor + |events|
  {
    items, last := yielded, cursor;
    for i := 0 to |events|
      invariant Yielded(items) == Yielded(yielded) + events[..i]
      invariant last == cursor + i
    {
      YieldedAppend(items, Some(events[i]));
      last := events[i].seqNo;
      items := items + [Some(events[i])];
    }
    assert events[..|events|] == events;
  }

  /**
    What the loop has yielded after some turns: the events after the cursor that it has read, once each and
    in order.
  */
  ghost predicate Streams(polls: seq<Poll>, turns: nat, afterSeq: nat, items: seq<Option<EventRow>>) {
    turns <= |polls| && Yielded(items) == After(Read(polls, turns), afterSeq)
  }

  /**
    The loop over the given turns: it yields exactly the events after the cursor that it has
    read, each once and in order, and finishes on a terminal run only with nothing left.
  */
  method StreamEvents(polls: seq<Poll>, afterSeq: nat, pollMs: nat, keepAliveMs: nat)
    returns (items: seq<Option<EventRow>>, turns: nat, ending: Ending)
    requires InTimeOrder(polls)
    ensures Streams(polls, turns, afterSeq, items)
    ensures ending.Finished? ==> turns > 0 && !polls[turns - 1].statusAt.status.Active()
    ensures ending.Finished? ==> Yielded(items) == After(polls[turns - 1].statusAt.events, afterSeq)
    ensures ending.Disconnected? ==> turns > 0 && polls[turns - 1].disconnected
    ensures turns > 0 ==> KeptOpen(polls, turns - 1, afterSeq)
    ensures ending.StillOpen? ==> turns == |polls|
  {
    var cursor, elapsed := afterSeq, 0;
    items, turns, ending := [], 0, StillOpen;
    while turns < |polls|
      invariant turns <= |polls| && elapsed >= 0 && cursor == Max(|Read(polls, turns)|, afterSeq)
      invariant Streams(polls, turns, afterSeq, items) && KeptOpen(polls, turns, afterSeq)
    {
      var poll := polls[turns];
      items, cursor, elapsed := ReadTurn(polls, turns, afterSeq, items, cursor, elapsed);
      turns := turns + 1;
      if !poll.statusAt.status.Active() && cursor >= poll.statusAt.lastSeq { return items, turns, Finished; }
      if poll.disconnected { return items, turns, Disconnected; }
      elapsed := elapsed + pollMs;
      if elapsed >= keepAliveMs {
        YieldedAppend(items, None);
        elapsed := 0;
        items := items + [None];
      }
    }
  }

  /** Fetch what is new and yield it. */
  method ReadTurn(polls: seq<Poll>, turns: nat, afterSeq: nat, before: seq<Option<EventRow>>, from: nat, waited: nat)
    returns (items: seq<Option<EventRow>>, cursor: nat, elapsed: nat)
    requires InTimeOrder(polls) && turns < |polls| && from == Max(|Read(polls, turns)|, afterSeq)
    requires Streams(polls, turns, afterSeq, before)
    ensures Streams(polls, turns + 1, afterSeq, items) && cursor == Max(|Read(polls, turns + 1)|, afterSeq)
    ensures polls[turns].statusAt.lastSeq <= cursor ==> Yielded(items) == After(polls[turns].statusAt.events, afterSeq)
  {
    var events := EventsAfter(polls[turns].eventsAt.events, from);
    TurnFacts(polls, turns, afterSeq, from);
    items, cursor := YieldEach(before, events, from);
    elapsed := if events != [] then 0 else waited;
  }

  // ----- from the server loop through the wire to one reader -----

  function ItemOf(w: Publication, item: Option<EventRow>): Item {
    if item.Some? then Event(Publish(w, item.value)) else KeepAlive
  }

  /** The loop's items as the stream prints them; an empty item is a keep-alive. */
  function ItemsOf(w: Publication, items: seq<Option<EventRow>>): seq<Item> {
    seq(|items|, i requires 0 <= i < |items| => ItemOf(w, items[i]))
  }

  lemma {:induction false} ReadableItems(w: Publication, items: seq<Option<EventRow>>)
    requires forall i :: 0 <= i < |items| && items[i].Some? ==> items[i].value.seqNo <= MAX_SAFE_INTEGER
    ensures Readable(ItemsOf(w, items)) == PublishAll(w, Yielded(items))
  {
    if items != [] {
      var front, last := items[..|items| - 1], items[|items| - 1];
      ReadableItems(w, front);
      ItemsOfLast(w, items);
      ReadableAppend(ItemsOf(w, front), ItemOf(w, last));
      ReadableOne(w, last);
      PublishAllAppend(w, Yielded(front), if last.Some? then [last.value] else []);
    }
  }

  lemma ItemsOfLast(w: Publication, items: seq<Option<EventRow>>)
    requires items != []
    ensures ItemsOf(w, items) == ItemsOf(w, items[..|items| - 1]) + [ItemOf(w, items[|items| - 1])]
  {}

  lemma ReadableOne(w: Publication, item: Option<EventRow>)
    requires item.Some? ==> item.value.seqNo <= MAX_SAFE_INTEGER
    ensures Readable([ItemOf(w, item)]) == PublishAll(w, if item.Some? then [item.value] else [])
  {
    assert [ItemOf(w, item)][1..] == [];
  }

  lemma PublishAllAppend(w: Publication, a: seq<EventRow>, b: seq<EventRow>)
    ensures PublishAll(w, a + b) == PublishAll(w, a) + PublishAll(w, b)
  {}

  lemma {:induction false} ReadableAppend(items: seq<Item>, item: Item)
    ensures Readable(items + [item]) == Readable(items) + Readable([item])
  {
    if items == [] {
      assert items + [item] == [item];
    } else {
      assert (items + [item])[1..] == items[1..] + [item];
      ReadableAppend(items[1..], item);
    }
  }

  lemma {:induction false} YieldedMember(items: seq<Option<EventRow>>, i: nat)
    requires i < |items| && items[i].Some?
    ensures items[i].value in Yielded(items)
  {
    if i < |items| - 1 { YieldedMember(items[..|items| - 1], i); }
  }

  lemma ItemInLog(log: seq<EventRow>, cursor: nat, n: nat, items: seq<Option<EventRow>>, i: nat)
    requires cursor <= n <= |log| && forall i :: 0 <= i < |log| ==> log[i].seqNo == i + 1
    requires Yielded(items) == log[cursor..n] && i < |items| && items[i].Some?
    ensures 1 <= items[i].value.seqNo <= |log|
  {
    YieldedMember(items, i);
    var k :| 0 <= k < |log[cursor..n]| && log[cursor..n][k] == items[i].value;
    assert log[cursor..n][k] == log[cursor + k];
  }

  lemma ItemsPrintable(w: Publication, log: seq<EventRow>, cursor: nat, n: nat, items: seq<Option<EventRow>>)
    requires cursor <= n <= |log| <= MAX_SAFE_INTEGER && forall i :: 0 <= i < |log| ==> log[i].seqNo == i + 1
    requires Yielded(items) == log[cursor..n]
    ensures AllPrintable(ItemsOf(w, items))
    ensures forall i :: 0 <= i < |items| && items[i].Some? ==> items[i].value.seqNo <= MAX_SAFE_INTEGER
  {
    forall i | 0 <= i < |items| && items[i].Some?
      ensures items[i].value.seqNo <= MAX_SAFE_INTEGER && Printable(Publish(w, items[i].value))
    {
      ItemInLog(log, cursor, n, items, i);
      PublishedPrintable(w, items[i].value);
    }
  }

  /**
    Whatever the server loop yields from a cursor, however the text is chunked and wherever
    it is cut, the browser receives a prefix of the published log after the cursor.
  */
  lemma ServedIsLogPrefix(w: Publication, log: seq<EventRow>, cursor: nat, n: nat, items: seq<Option<EventRow>>,
                          chunks: seq<string>, ended: bool)
    requires cursor <= n <= |log| <= MAX_SAFE_INTEGER && forall i :: 0 <= i < |log| ==> log[i].seqNo == i + 1
    requires Yielded(items) == log[cursor..n]
    requires Flatten(chunks) <= Wire(ItemsOf(w, items))
    ensures Delivered(Sse.Received(chunks), ended) <= PublishAll(w, log[cursor..])
  {
    ItemsPrintable(w, log, cursor, n, items);
    SseCutDeliversPrefix(ItemsOf(w, items), chunks, ended);
    ReadableItems(w, items);
    assert log[cursor..n] <= log[cursor..];
    assert PublishAll(w, log[cursor..n]) <= PublishAll(w, log[cursor..]);
  }

  // ----- the reconnecting reader -----

  datatype Response =
    | Rejected                                              // a 4xx response
    | Down                                                  // no connection or a 5xx response
    | Body(serve: nat -> seq<ProductEvent>, broken: bool)   // what a stream from a cursor delivers before it closes or breaks

  datatype Attempt = Attempt(abortedBefore: bool, answer: Response, abortedAfter: bool)

  datatype Close = Ended | Stopped | Refused | Reconnecting

  /** The events a connection passes on: those of this run beyond the cursor. */
  function Accepted(runId: string, cursor: int, events: seq<ProductEvent>): seq<ProductEvent>
    decreases |events|
  {
    if events == [] then []
    else if events[0].runId != runId || events[0].seqNo <= cursor then Accepted(runId, cursor, events[1..])
    else [events[0]] + Accepted(runId, events[0].seqNo, events[1..])
  }

  function LastSeq(cursor: int, events: seq<ProductEvent>): int {
    if events == [] then cursor else events[|events| - 1].seqNo
  }

  predicate TerminalKind(kind: string) { kind == "run.completed" || kind == "run.failed" || kind == "run.cancelled" }

  predicate EndsRun(events: seq<ProductEvent>) { events != [] && TerminalKind(events[|events| - 1].kind) }

  datatype Progress = Progress(delivered: seq<ProductEvent>, afterSeq: int, close: Close)

  function Session(runId: string, cursor: int, attempts: seq<Attempt>): Progress
    decreases |attempts|
  {
    if attempts == [] then Progress([], cursor, Reconnecting)
    else if attempts[0].abortedBefore then Progress([], cursor, Stopped)
    else
      match attempts[0].answer
      case Rejected => Progress([], cursor, if attempts[0].abortedAfter then Stopped else Refused)
      case Down => if attempts[0].abortedAfter then Progress([], cursor, Stopped) else Session(runId, cursor, attempts[1..])
      case Body(serve, broken) =>
        var events := Accepted(runId, cursor, serve(if cursor < 0 then 0 else cursor));
        var next := LastSeq(cursor, events);
        if attempts[0].abortedAfter then Progress(events, next, Stopped)
        else if !broken && EndsRun(events) then Progress(events, next, Ended)
        else
          var rest := Session(runId, next, attempts[1..]);
          rest.(delivered := events + rest.delivered)
  }

  lemma AcceptedStep(runId: string, cursor: int, events: seq<ProductEvent>, i: nat)
    requires i < |events|
    ensures Accepted(runId, cursor, events[i..]) ==
      if events[i].runId != runId || events[i].seqNo <= cursor then Accepted(runId, cursor, events[i + 1..])
      else [events[i]] + Accepted(runId, events[i].seqNo, events[i + 1..])
  {
    assert events[i..][1..] == events[i + 1..];
  }

  /** The callback of one connection: filter, advance the cursor, remember whether the last event ended the run. */
  method ReadBody(runId: string, cursor: int, events: seq<ProductEvent>)
    returns (delivered: seq<ProductEvent>, afterSeq: int, terminal: bool)
    ensures delivered == Accepted(runId, cursor, events)
    ensures afterSeq == LastSeq(cursor, delivered) && (terminal <==> EndsRun(delivered))
  {
    delivered, afterSeq, terminal := [], cursor, false;
    assert events[0..] == events;
    for i := 0 to |events|
      invariant delivered + Accepted(runId, afterSeq, events[i..]) == Accepted(runId, cursor, events)
      invariant afterSeq == LastSeq(cursor, delivered) && (terminal <==> EndsRun(delivered))
    {
      AcceptedStep(runId, afterSeq, events, i);
      var e := events[i];
      if e.runId != runId || e.seqNo <= afterSeq { continue; }
      afterSeq := e.seqNo;
      delivered := delivered + [e];
      terminal := TerminalKind(e.kind);
    }
  }

  /** The reader over the given connection attempts. */
  method StreamRunEvents(runId: string, initialAfterSeq: int, attempts: seq<Attempt>)
    returns (delivered: seq<ProductEvent>, afterSeq: int, close: Close)
    ensures Session(runId, initialAfterSeq, attempts) == Progress(delivered, afterSeq, close)
  {
    delivered, afterSeq, close := [], initialAfterSeq, Reconnecting;
    ghost var all := Session(runId, initialAfterSeq, attempts);
    ghost var owed := all;
    assert attempts[0..] == attempts;
    for i := 0 to |attempts|
      invariant close == Reconnecting && owed == Session(runId, afterSeq, attempts[i..])
      invariant all == Progress(delivered + owed.delivered, owed.afterSeq, owed.close)
    {
      var attempt := attempts[i];
      SessionStep(runId, afterSeq, attempts, i);
      if attempt.abortedBefore { return delivered, afterSeq, Stopped; }
      match attempt.answer {
        case Rejected =>
          if attempt.abortedAfter { return delivered, afterSeq, Stopped; }
          return delivered, afterSeq, Refused;
        case Down =>
          if attempt.abortedAfter { return delivered, afterSeq, Stopped; }
        case Body(serve, broken) =>
          var events, next, terminal := ReadBody(runId, afterSeq, serve(if afterSeq < 0 then 0 else afterSeq));
          Assoc(delivered, events, Session(runId, next, attempts[i + 1..]).delivered);
          delivered, afterSeq := delivered + events, next;
          if attempt.abortedAfter { return delivered, afterSeq, Stopped; }
          if !broken && terminal { return delivered, afterSeq, Ended; }
      }
      owed := Session(runId, afterSeq, attempts[i + 1..]);
    }
  }

  /** One connection attempt of the reader. */
  lemma SessionStep(runId: string, cursor: int, attempts: seq<Attempt>, i: nat)
    requires i < |attempts|
    ensures var a, now := attempts[i], Session(runId, cursor, attempts[i..]);
      if a.abortedBefore then now == Progress([], cursor, Stopped)
      else if a.answer.Rejected? then now == Progress([], cursor, if a.abortedAfter then Stopped else Refused)
      else if a.answer.Down? then now == if a.abortedAfter then Progress([], cursor, Stopped) else Session(runId, cursor, attempts[i + 1..])
      else
        var events := Accepted(runId, cursor, a.answer.serve(if cursor < 0 then 0 else cursor));
        var next := LastSeq(cursor, events);
        var rest := Session(runId, next, attempts[i + 1..]);
        now == if a.abortedAfter then Progress(events, next, Stopped)
               else if !a.answer.broken && EndsRun(events) then Progress(events, next, Ended)
               else Progress(events + rest.delivered, rest.afterSeq, rest.close)
  {
    assert attempts[i..][0] == attempts[i] && attempts[i..][1..] == attempts[i + 1..];
  }

  /** Every connection serves a prefix of the published log after the cursor it was asked for. */
  ghost predicate Genuine(attempts: seq<Attempt>, w: Publication, log: seq<EventRow>) {
    forall i :: 0 <= i < |attempts| && attempts[i].answer.Body? ==> ServesLog(attempts[i].answer.serve, w, log)
  }

  ghost predicate ServesLog(serve: nat -> seq<ProductEvent>, w: Publication, log: seq<EventRow>) {
    forall c: nat :: c <= |log| ==> serve(c) <= PublishAll(w, log[c..])
  }

  /** Events of a run that carry the numbers right after the cursor. */
  ghost predicate Consecutive(runId: string, c: int, events: seq<ProductEvent>) {
    forall i :: 0 <= i < |events| ==> events[i].runId == runId && events[i].seqNo == c + i + 1
  }

  lemma {:induction false} AcceptsAll(runId: string, c: int, events: seq<ProductEvent>)
    requires Consecutive(runId, c, events)
    ensures Accepted(runId, c, events) == events && LastSeq(c, events) == c + |events|
    decreases |events|
  {
    if events != [] {
      AcceptsAll(runId, c + 1, events[1..]);
      assert events == [events[0]] + events[1..];
    }
  }

  /** Nothing is filtered from consecutive events right after the cursor. */
  lemma AcceptsConsecutive(w: Publication, log: seq<EventRow>, c: nat, n: nat)
    requires c <= n <= |log| && forall i :: 0 <= i < |log| ==> log[i].seqNo == i + 1
    ensures Accepted(w.run, c, PublishAll(w, log[c..n])) == PublishAll(w, log[c..n])
    ensures LastSeq(c, PublishAll(w, log[c..n])) == n
  {
    AcceptsAll(w.run, c, PublishAll(w, log[c..n]));
  }

  /**
    Exactly once, in order: over any number of dropped connections the events passed on are the
    consecutive events of the log after the initial cursor, and the reader ends only on a terminal event.
  */
  lemma {:induction false} ExactlyOnceInOrder(w: Publication, log: seq<EventRow>, cursor: nat, attempts: seq<Attempt>)
    requires cursor <= |log| && forall i :: 0 <= i < |log| ==> log[i].seqNo == i + 1
    requires Genuine(attempts, w, log)
    ensures var s := Session(w.run, cursor, attempts);
      && cursor <= s.afterSeq <= |log|
      && s.delivered == PublishAll(w, log[cursor..s.afterSeq])
      && (s.close.Ended? ==> EndsRun(s.delivered))
    decreases |attempts|
  {
    if attempts != [] && !attempts[0].abortedBefore {
      var a, rest := attempts[0], attempts[1..];
      assert forall i :: 0 <= i < |rest| ==> rest[i] == attempts[i + 1];
      match a.answer
      case Rejected =>
      case Down => ExactlyOnceInOrder(w, log, cursor, rest);
      case Body(serve, broken) => {
        var n := cursor + |serve(cursor)|;
        BodyDelivers(w, log, cursor, serve);
        ExactlyOnceInOrder(w, log, n, rest);
        BodyThenRest(w, log, cursor, attempts, n);
      }
    }
  }

  lemma SessionBody(runId: string, cursor: nat, attempts: seq<Attempt>, events: seq<ProductEvent>, next: int)
    requires attempts != [] && attempts[0].answer.Body? && !attempts[0].abortedBefore
    requires events == Accepted(runId, cursor, attempts[0].answer.serve(cursor)) && next == LastSeq(cursor, events)
    ensures var s, rest := Session(runId, cursor, attempts), Session(runId, next, attempts[1..]);
      || (s.delivered == events && s.afterSeq == next && (s.close.Ended? ==> EndsRun(events)))
      || (s.delivered == events + rest.delivered && s.afterSeq == rest.afterSeq && s.close == rest.close)
  {}

  /** One connection's events, then those of the connections after it. */
  lemma BodyThenRest(w: Publication, log: seq<EventRow>, cursor: nat, attempts: seq<Attempt>, n: nat)
    requires attempts != [] && attempts[0].answer.Body? && !attempts[0].abortedBefore && cursor <= n <= |log|
    requires var events := Accepted(w.run, cursor, attempts[0].answer.serve(cursor));
      events == PublishAll(w, log[cursor..n]) && LastSeq(cursor, events) == n
    requires var rest := Session(w.run, n, attempts[1..]);
      && n <= rest.afterSeq <= |log| && rest.delivered == PublishAll(w, log[n..rest.afterSeq])
      && (rest.close.Ended? ==> EndsRun(rest.delivered))
    ensures var s := Session(w.run, cursor, attempts);
      && cursor <= s.afterSeq <= |log|
      && s.delivered == PublishAll(w, log[cursor..s.afterSeq])
      && (s.close.Ended? ==> EndsRun(s.delivered))
  {
    SessionBody(w.run, cursor, attempts, PublishAll(w, log[cursor..n]), n);
    JoinPublished(w, log, cursor, n, Session(w.run, n, attempts[1..]).afterSeq);
  }

  lemma BodyDelivers(w: Publication, log: seq<EventRow>, cursor: nat, serve: nat -> seq<ProductEvent>)
    requires cursor <= |log| && forall i :: 0 <= i < |log| ==> log[i].seqNo == i + 1
    requires ServesLog(serve, w, log)
    ensures var n := cursor + |serve(cursor)|; var events := Accepted(w.run, cursor, serve(cursor));
      n <= |log| && events == PublishAll(w, log[cursor..n]) && LastSeq(cursor, events) == n
  {
    var served := serve(cursor);
    var n := cursor + |served|;
    assert served <= PublishAll(w, log[cursor..]);
    assert served == PublishAll(w, log[cursor..n]);
    AcceptsConsecutive(w, log, cursor, n);
  }

  lemma JoinPublished(w: Publication, log: seq<EventRow>, a: nat, b: nat, c: nat)
    requires a <= b <= c <= |log|
    ensures PublishAll(w, log[a..b]) + PublishAll(w, log[b..c]) == PublishAll(w, log[a..c])
  {
    assert log[a..b] + log[b..c] == log[a..c];
  }

  /** The events beyond a cursor that belong to one run, in strictly increasing order. */
  ghost predicate InOrderBeyond(a: seq<ProductEvent>, runId: string, cursor: int) {
    && (forall i :: 0 <= i < |a| ==> a[i].runId == runId && a[i].seqNo > cursor)
    && (forall i, j :: 0 <= i < j < |a| ==> a[i].seqNo < a[j].seqNo)
  }

  lemma FirstThenOrdered(e: ProductEvent, later: seq<ProductEvent>, runId: string, cursor: int)
    requires e.runId == runId && e.seqNo > cursor && InOrderBeyond(later, runId, e.seqNo)
    ensures InOrderBeyond([e] + later, runId, cursor)
  {
    var a := [e] + later;
    assert forall i :: 0 < i < |a| ==> a[i] == later[i - 1];
  }

  /** Even from a server that repeats or reorders, events are passed on with strictly increasing numbers. */
  lemma {:induction false} AcceptedIncreases(runId: string, cursor: int, events: seq<ProductEvent>)
    ensures InOrderBeyond(Accepted(runId, cursor, events), runId, cursor)
    decreases |events|
  {
    if events != [] {
      if events[0].runId != runId || events[0].seqNo <= cursor {
        AcceptedIncreases(runId, cursor, events[1..]);
      } else {
        AcceptedIncreases(runId, events[0].seqNo, events[1..]);
        FirstThenOrdered(events[0], Accepted(runId, events[0].seqNo, events[1..]), runId, cursor);
      }
    }
  }

  // ----- from the database to the callback -----

  /** One connection as the host answers it: its polls, what the loop yielded, and what of the text arrived. */
  datatype Served = Served(polls: seq<Poll>, turns: nat, items: seq<Option<EventRow>>, chunks: seq<string>, ended: bool)

  /**
    What a connection from a cursor delivers is what the reader makes of some cut and chunking of the
    text printed for what the server loop yields while the log grows towards `log`.
  */
  ghost predicate HostServes(s: Served, cursor: nat, delivered: seq<ProductEvent>, w: Publication, log: seq<EventRow>) {
    && Streams(s.polls, s.turns, cursor, s.items) && Read(s.polls, s.turns) <= log
    && Flatten(s.chunks) <= Wire(ItemsOf(w, s.items))
    && delivered == Delivered(Sse.Received(s.chunks), s.ended)
  }

  ghost predicate FromHost(attempts: seq<Attempt>, w: Publication, log: seq<EventRow>) {
    forall i, c: nat :: 0 <= i < |attempts| && attempts[i].answer.Body? && c <= |log| ==>
      ServedFrom(attempts[i].answer.serve, c, w, log)
  }

  ghost predicate ServedFrom(serve: nat -> seq<ProductEvent>, cursor: nat, w: Publication, log: seq<EventRow>) {
    exists s :: HostServes(s, cursor, serve(cursor), w, log)
  }

  lemma HostServesLog(s: Served, cursor: nat, delivered: seq<ProductEvent>, w: Publication, log: seq<EventRow>)
    requires HostServes(s, cursor, delivered, w, log) && cursor <= |log| <= MAX_SAFE_INTEGER
    requires forall i :: 0 <= i < |log| ==> log[i].seqNo == i + 1
    ensures delivered <= PublishAll(w, log[cursor..])
  {
    var read := Read(s.polls, s.turns);
    var n := Max(|read|, cursor);
    assert After(read, cursor) == log[cursor..n];
    ServedIsLogPrefix(w, log, cursor, n, s.items, s.chunks, s.ended);
  }

  /**
    Exactly once, in order, from the database to the callback: whatever the polls saw of the growing
    log, however the texts were cut, and however often the connection dropped, the events passed on
    are the consecutive events of the log after the initial cursor.
  */
  lemma ExactlyOnceFromHost(w: Publication, row: RunRow, cursor: nat, attempts: seq<Attempt>)
    requires Numbered(row) && cursor <= |row.events| <= MAX_SAFE_INTEGER && FromHost(attempts, w, row.events)
    ensures var s := Session(w.run, cursor, attempts);
      && cursor <= s.afterSeq <= |row.events|
      && s.delivered == PublishAll(w, row.events[cursor..s.afterSeq])
      && (s.close.Ended? ==> EndsRun(s.delivered))
  {
    var log := row.events;
    forall i | 0 <= i < |attempts| && attempts[i].answer.Body? ensures ServesLog(attempts[i].answer.serve, w, log) {
      forall c: nat | c <= |log| ensures attempts[i].answer.serve(c) <= PublishAll(w, log[c..]) {
        assert ServedFrom(attempts[i].answer.serve, c, w, log);
        var s :| HostServes(s, c, attempts[i].answer.serve(c), w, log);
        HostServesLog(s, c, attempts[i].answer.serve(c), w, log);
      }
    }
    ExactlyOnceInOrder(w, log, cursor, attempts);
  }
}
