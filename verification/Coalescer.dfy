/** The live answer stream (agent_runtime.py): provider chunks become short public deltas under a render timer. */
module Coalescer {
  import opened Common

  const TARGET := 24
  const MIN_PHRASE := 3
  const MAX_WAIT_MS := 160
  const PUBLIC_MAX := 8000

  predicate PhraseEnd(c: char) {
    c == '\n' || c == '\r' || c == ',' || c == '.' || c == '!' || c == '?' || c == ';' || c == ':'
    || c == '\U{FF0C}' || c == '\U{3002}' || c == '\U{FF01}' || c == '\U{FF1F}' || c == '\U{FF1B}' || c == '\U{FF1A}' || c == '\U{3001}'
  }

  /** The position just after the last phrase end, or 0. */
  function LastPhraseEnd(text: string): (r: nat)
    ensures r <= |text|
    ensures r > 0 ==> PhraseEnd(text[r - 1])
    ensures forall i :: r <= i < |text| ==> !PhraseEnd(text[i])
  {
    if text == "" then 0
    else if PhraseEnd(text[|text| - 1]) then |text|
    else LastPhraseEnd(text[..|text| - 1])
  }

  function Window(text: string): string { if |text| <= TARGET then text else text[..TARGET] }

  function FlushPrefixLength(text: string): nat {
    if |text| < MIN_PHRASE then 0
    else
      var boundary := LastPhraseEnd(Window(text));
      if boundary >= MIN_PHRASE then boundary
      else if |text| >= TARGET then TARGET
      else 0
  }

  /** A cut of a buffer: within the target, at least a short phrase, at a phrase end or at the target. */
  ghost predicate GoodCut(text: string, n: nat) {
    && MIN_PHRASE <= n <= TARGET && n <= |text|
    && (PhraseEnd(text[n - 1]) || n == TARGET)
  }

  /** The chosen prefix is a good cut, no later phrase end in the window is passed over, and 0 means there is none. */
  lemma PrefixIsLastGoodCut(text: string)
    ensures var n := FlushPrefixLength(text);
      if n == 0 then forall m: nat :: !GoodCut(text, m)
      else GoodCut(text, n) && forall m: nat :: GoodCut(text, m) && PhraseEnd(text[m - 1]) ==> m <= n
  {}

  datatype StreamError = TextInvalid | ToolCallForbidden | ChunkInvalid | Interrupted | FlushStateInvalid

  /** How the provider's stream ends after its text chunks. */
  datatype Close = StreamEnds | ToolSignal | InvalidChunk | Interruption

  function CloseError(close: Close): StreamError {
    match close
    case StreamEnds => TextInvalid
    case ToolSignal => ToolCallForbidden
    case InvalidChunk => ChunkInvalid
    case Interruption => Interrupted
  }

  /** The public events of one flushed block. */
  method EmitStreamChunk(text: string) returns (events: seq<string>)
    ensures Flatten(events) == text
    ensures 1 <= |text| <= PUBLIC_MAX ==> events == [text]
    ensures forall i :: 0 <= i < |events| ==> 1 <= |events[i]| <= PUBLIC_MAX
  {
    events := [];
    var offset := 0;
    while offset < |text|
      invariant offset <= |text| && Flatten(events) == text[..offset]
      invariant offset == 0 ==> events == []
      invariant offset > 0 && |text| <= PUBLIC_MAX ==> events == [text] && offset == |text|
      invariant forall i :: 0 <= i < |events| ==> 1 <= |events[i]| <= PUBLIC_MAX
    {
      var end := if offset + PUBLIC_MAX <= |text| then offset + PUBLIC_MAX else |text|;
      FlattenConcat(events, [text[offset..end]]);
      assert Flatten([text[offset..end]]) == text[offset..end] by { assert [text[offset..end]][1..] == []; }
      assert offset == 0 && end == |text| ==> text[offset..end] == text;
      events := events + [text[offset..end]];
      offset := end;
    }
    assert text[..offset] == text;
  }

  /** Every delta but the last is a short phrase at least, and none is longer than the target. */
  ghost predicate WellSized(deltas: seq<string>, low: nat) {
    forall i :: 0 <= i < |deltas| ==> low <= |deltas[i]| <= TARGET
  }

  lemma FlattenAppend(deltas: seq<string>, d: string)
    ensures Flatten(deltas + [d]) == Flatten(deltas) + d
  {
    FlattenConcat(deltas, [d]);
    assert [d][1..] == [];
  }

  lemma BlankAppend(a: string, b: string)
    ensures Blank(a + b) <==> Blank(a) && Blank(b)
  {
    if Blank(a + b) {
      forall i | 0 <= i < |a| ensures IsSpace(a[i]) { assert (a + b)[i] == a[i]; }
      forall i | 0 <= i < |b| ensures IsSpace(b[i]) { assert (a + b)[|a| + i] == b[i]; }
    }
  }

  lemma TakeOne(chunks: seq<string>, i: nat)
    requires i < |chunks|
    ensures Flatten(chunks[..i + 1]) == Flatten(chunks[..i]) + chunks[i]
    ensures |Flatten(chunks[..i + 1])| <= |Flatten(chunks)|
  {
    assert chunks[..i + 1] == chunks[..i] + [chunks[i]];
    FlattenAppend(chunks[..i], chunks[i]);
    assert chunks == chunks[..i + 1] + chunks[i + 1..];
    FlattenConcat(chunks[..i + 1], chunks[i + 1..]);
  }

  lemma CutOne(sent: seq<string>, rest: string, n: nat)
    requires n == FlushPrefixLength(rest) > 0 && WellSized(sent, MIN_PHRASE)
    ensures n <= |rest| && MIN_PHRASE <= n <= TARGET
    ensures WellSized(sent + [rest[..n]], MIN_PHRASE)
    ensures Flatten(sent + [rest[..n]]) + rest[n..] == Flatten(sent) + rest
  {
    PrefixIsLastGoodCut(rest);
    FlattenAppend(sent, rest[..n]);
    assert rest == rest[..n] + rest[n..];
  }

  /** Cut good prefixes off the buffer until none is left; each cut restarts the render timer. */
  method FlushPhrases(emitted: seq<string>, buffer: string, deadline: Option<int>, at: int)
    returns (sent: seq<string>, rest: string, flushAt: Option<int>)
    requires buffer != "" && WellSized(emitted, MIN_PHRASE)
    ensures emitted <= sent && WellSized(sent, MIN_PHRASE) && |rest| < TARGET
    ensures Flatten(sent) + rest == Flatten(emitted) + buffer
    ensures flushAt == if sent == emitted then deadline else if rest == "" then None else Some(at + MAX_WAIT_MS)
    ensures rest == "" ==> sent != emitted
    ensures FlushPrefixLength(rest) == 0
  {
    sent, rest, flushAt := emitted, buffer, deadline;
    var n := FlushPrefixLength(rest);
    while n > 0
      invariant n == FlushPrefixLength(rest)
      invariant emitted <= sent && WellSized(sent, MIN_PHRASE) && Flatten(sent) + rest == Flatten(emitted) + buffer
      invariant flushAt == if sent == emitted then deadline else if rest == "" then None else Some(at + MAX_WAIT_MS)
      invariant rest == "" ==> sent != emitted
      decreases |rest|
    {
      CutOne(sent, rest, n);
      var events := EmitStreamChunk(rest[..n]);
      sent := sent + events;
      rest := rest[n..];
      flushAt := if rest != "" then Some(at + MAX_WAIT_MS) else None;
      n := FlushPrefixLength(rest);
    }
  }

  lemma Assoc(a: string, b: string, c: string)
    ensures a + b + c == a + (b + c)
  {}

  /** Moving part of the buffer into the emitted deltas keeps their concatenation. */
  lemma MoveOut(emitted: seq<string>, buffer: string, deltas: seq<string>, rest: string)
    requires Flatten(deltas) + rest == buffer && WellSized(emitted, MIN_PHRASE) && WellSized(deltas, MIN_PHRASE)
    ensures Flatten(emitted + deltas) + rest == Flatten(emitted) + buffer && WellSized(emitted + deltas, MIN_PHRASE)
  {
    FlattenConcat(emitted, deltas);
    Assoc(Flatten(emitted), Flatten(deltas), rest);
  }

  /** The last delta may be shorter than a phrase. */
  lemma LastOut(emitted: seq<string>, buffer: string)
    requires WellSized(emitted, MIN_PHRASE) && 1 <= |buffer| <= TARGET
    ensures Flatten(emitted + [buffer]) == Flatten(emitted) + buffer
    ensures WellSized(emitted + [buffer], 1) && (emitted + [buffer])[..|emitted|] == emitted
  {
    FlattenAppend(emitted, buffer);
  }

  /** When the timer fires, a short phrase goes out; a lone short token waits on. */
  method FlushOnTimer(emitted: seq<string>, buffer: string) returns (sent: seq<string>, rest: string)
    requires WellSized(emitted, MIN_PHRASE) && 1 <= |buffer| < TARGET
    ensures Flatten(sent) + rest == Flatten(emitted) + buffer && WellSized(sent, MIN_PHRASE)
    ensures rest == if |buffer| < MIN_PHRASE then buffer else ""
    ensures sent == if |buffer| < MIN_PHRASE then emitted else emitted + [buffer]
  {
    sent, rest := emitted, buffer;
    if |buffer| >= MIN_PHRASE {
      var events := EmitStreamChunk(buffer);
      MoveOut(emitted, buffer, events, "");
      sent, rest := emitted + events, "";
    }
  }

  /** At the end of the stream whatever is left goes out. */
  method FlushAtEnd(emitted: seq<string>, buffer: string) returns (sent: seq<string>)
    requires WellSized(emitted, MIN_PHRASE) && |buffer| < TARGET
    ensures Flatten(sent) == Flatten(emitted) + buffer && WellSized(sent, 1)
    ensures sent != [] ==> WellSized(sent[..|sent| - 1], MIN_PHRASE)
  {
    sent := emitted;
    if buffer != "" {
      var events := EmitStreamChunk(buffer);
      LastOut(emitted, buffer);
      sent := emitted + events;
    }
  }

  /** What is known of a stream while its chunks arrive. */
  ghost predicate Streaming(received: string, emitted: seq<string>, buffer: string, maxAnswerChars: nat) {
    && received == Flatten(emitted) + buffer && |received| <= maxAnswerChars && WellSized(emitted, MIN_PHRASE)
    && (if Blank(received) then emitted == [] else |buffer| < TARGET)
  }

  lemma Receive(received: string, emitted: seq<string>, buffer: string, maxAnswerChars: nat, delta: string)
    requires Streaming(received, emitted, buffer, maxAnswerChars) && |received| + |delta| <= maxAnswerChars
    ensures received + delta == Flatten(emitted) + (buffer + delta)
    ensures Blank(received + delta) <==> Blank(received) && Blank(delta)
    ensures Blank(received + delta) ==> Streaming(received + delta, emitted, buffer + delta, maxAnswerChars)
  {
    BlankAppend(received, delta);
    Assoc(Flatten(emitted), buffer, delta);
  }

  /** The timer sends the whole buffer as one delta, unless it is shorter than a phrase. */
  method TimerFires(ghost received: string, emitted: seq<string>, buffer: string, ghost maxAnswerChars: nat)
    returns (sent: seq<string>, rest: string)
    requires Streaming(received, emitted, buffer, maxAnswerChars) && !Blank(received) && buffer != ""
    ensures Streaming(received, sent, rest, maxAnswerChars)
    ensures rest == if |buffer| < MIN_PHRASE then buffer else ""
    ensures sent == if |buffer| < MIN_PHRASE then emitted else emitted + [buffer]
  {
    sent, rest := FlushOnTimer(emitted, buffer);
  }

  /** A chunk joins the buffer; once anything visible has arrived, the timer runs and phrases go out. */
  method ChunkArrives(ghost received: string, emitted: seq<string>, buffer: string, ghost maxAnswerChars: nat,
                      delta: string, hasText: bool, running: Option<int>, at: int)
    returns (sent: seq<string>, rest: string, seen: bool, flushAt: Option<int>)
    requires Streaming(received, emitted, buffer, maxAnswerChars)
    requires delta != "" && |received| + |delta| <= maxAnswerChars
    requires (hasText <==> !Blank(received)) && (running.Some? ==> hasText)
    ensures Streaming(received + delta, sent, rest, maxAnswerChars) && (seen <==> !Blank(received + delta))
    ensures flushAt.Some? ==> rest != "" && seen
    ensures seen && rest != "" ==>
      flushAt == Some(if running.Some? && sent == emitted then running.value else at + MAX_WAIT_MS)
    ensures seen ==> FlushPrefixLength(rest) == 0
  {
    Receive(received, emitted, buffer, maxAnswerChars, delta);
    sent, rest, seen, flushAt := emitted, buffer + delta, hasText || !Blank(delta), running;
    if seen {
      if flushAt.None? { flushAt := Some(at + MAX_WAIT_MS); }
      sent, rest, flushAt := FlushPhrases(emitted, rest, flushAt, at);
    }
  }

  /** The receiving loop: it ends with the stream, or at the first chunk beyond the answer limit. */
  method ReceiveStream(chunks: seq<string>, maxAnswerChars: nat, now: nat -> int, timesOut: nat -> bool)
    returns (emitted: seq<string>, buffer: string, received: nat, failure: Option<StreamError>)
    ensures received <= |chunks|
    ensures failure.None? <==> |Flatten(chunks)| <= maxAnswerChars
    ensures failure.None? ==> received == |chunks| && Streaming(Flatten(chunks), emitted, buffer, maxAnswerChars)
    ensures failure.Some? ==> failure == Some(TextInvalid) && received > 0
    ensures failure.Some? ==> Streaming(Flatten(chunks[..received - 1]), emitted, buffer, maxAnswerChars)
  {
    ghost var text := "";
    var hasText, textChars, reading := false, 0, 0;
    var flushAt: Option<int> := None;
    emitted, buffer, received, failure := [], "", 0, None;
    while true
      invariant received <= |chunks| && text == Flatten(chunks[..received]) && textChars == |text|
      invariant Streaming(text, emitted, buffer, maxAnswerChars)
      invariant hasText <==> !Blank(text)
      invariant flushAt.Some? ==> buffer != "" && hasText
      invariant hasText && |buffer| >= MIN_PHRASE ==> flushAt.Some?
      decreases |chunks| - received, if flushAt.Some? then 1 else 0
    {
      reading := reading + 1;
      if flushAt.Some? && (now(reading) >= flushAt.value || timesOut(reading)) {
        if buffer == "" { return emitted, buffer, received, Some(FlushStateInvalid); }
        emitted, buffer := TimerFires(text, emitted, buffer, maxAnswerChars);
        flushAt := None;
        continue;
      }
      if received == |chunks| { break; }
      var delta := chunks[received];
      TakeOne(chunks, received);
      received := received + 1;
      if delta == "" { continue; }
      textChars := textChars + |delta|;
      if textChars > maxAnswerChars { return emitted, buffer, received, Some(TextInvalid); }
      emitted, buffer, hasText, flushAt := ChunkArrives(text, emitted, buffer, maxAnswerChars, delta, hasText, flushAt, now(reading));
      text := text + delta;
    }
    assert chunks[..received] == chunks;
  }

  /**
    The stream, for any chunks, any clock and any timer firings: what is emitted plus what is still
    buffered is what was received, and the answer is the whole text exactly when the stream ended
    with a text that is within the limit and not blank.
  */
  method StreamFinalResponse(chunks: seq<string>, close: Close, maxAnswerChars: nat, now: nat -> int,
                             timesOut: nat -> bool)
    returns (emitted: seq<string>, result: Result<string, StreamError>)
    ensures Flatten(emitted) <= Flatten(chunks) && |Flatten(emitted)| <= maxAnswerChars
    ensures result.Ok? ==> result.value == Flatten(chunks) == Flatten(emitted)
    ensures result.Ok? <==> close.StreamEnds? && |Flatten(chunks)| <= maxAnswerChars && !Blank(Flatten(chunks))
    ensures result.Err? ==>
      result.error == (if |Flatten(chunks)| > maxAnswerChars then TextInvalid else CloseError(close))
    ensures WellSized(emitted, 1) && (result.Err? ==> WellSized(emitted, MIN_PHRASE))
    ensures emitted != [] ==> WellSized(emitted[..|emitted| - 1], MIN_PHRASE) && !Blank(Flatten(chunks))
  {
    var sent, buffer, received, failure := ReceiveStream(chunks, maxAnswerChars, now, timesOut);
    emitted := sent;
    if failure.Some? {
      Sooner(chunks, received - 1);
      return emitted, Err(failure.value);
    }
    if !close.StreamEnds? { return emitted, Err(CloseError(close)); }
    if Blank(Flatten(chunks)) { return emitted, Err(TextInvalid); }
    emitted := FlushAtEnd(sent, buffer);
    result := Ok(Flatten(chunks));
  }

  /** What has arrived is a prefix of everything; it is not blank unless everything so far is. */
  lemma Sooner(chunks: seq<string>, n: nat)
    requires n <= |chunks|
    ensures Flatten(chunks[..n]) <= Flatten(chunks)
    ensures Blank(Flatten(chunks)) ==> Blank(Flatten(chunks[..n]))
  {
    assert chunks == chunks[..n] + chunks[n..];
    FlattenConcat(chunks[..n], chunks[n..]);
    BlankAppend(Flatten(chunks[..n]), Flatten(chunks[n..]));
  }
}
