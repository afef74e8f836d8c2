/** The event stream: the server's frame printer (api.py) and the browser's incremental reader (api.ts). */
module Sse {
  import opened Common
  import Json

  datatype ProductEvent = ProductEvent(
    eventId: string, runId: string, threadId: string, seqNo: int, kind: string, occurredAt: string, data: Json.Value)

  predicate KnownKind(kind: string) {
    kind == "run.started" || kind == "tool.started" || kind == "tool.finished" || kind == "message.delta"
    || kind == "source.added" || kind == "message.completed" || kind == "run.completed" || kind == "run.failed"
    || kind == "run.cancelled"
  }

  const MAX_SAFE_INTEGER := 9007199254740991

  // ----- the printer -----

  function Envelope(e: ProductEvent): Json.Value {
    Json.Obj([Json.Field("event_id", Json.Str(e.eventId)), Json.Field("run_id", Json.Str(e.runId)),
              Json.Field("thread_id", Json.Str(e.threadId)), Json.Field("seq", Json.Num(e.seqNo)),
              Json.Field("type", Json.Str(e.kind)), Json.Field("occurred_at", Json.Str(e.occurredAt)),
              Json.Field("data", e.data)])
  }

  function IdLine(e: ProductEvent): string { "id: " + Json.PrintInt(e.seqNo) }

  function TypeLine(e: ProductEvent): string { "event: " + e.kind }

  function DataLine(e: ProductEvent): string { "data: " + Json.Print(Envelope(e)) }

  function Frame(e: ProductEvent): string {
    IdLine(e) + "\n" + TypeLine(e) + "\n" + DataLine(e) + "\n\n"
  }

  datatype Item = Event(event: ProductEvent) | KeepAlive

  function PrintItem(item: Item): string {
    match item
    case Event(e) => Frame(e)
    case KeepAlive => ": keep-alive\n\n"
  }

  function Wire(items: seq<Item>): string {
    if items == [] then "" else PrintItem(items[0]) + Wire(items[1..])
  }

  // ----- the reader -----

  /** A JavaScript object keeps the last of equal names. */
  function Lookup(fields: seq<Json.Field>, name: string): Option<Json.Value> {
    if fields == [] then None
    else if fields[|fields| - 1].name == name then Some(fields[|fields| - 1].value)
    else Lookup(fields[..|fields| - 1], name)
  }

  function TextField(fields: seq<Json.Field>, name: string): Option<string> {
    match Lookup(fields, name)
    case Some(Str(s)) => Some(s)
    case _ => None
  }

  function ParseProductEvent(v: Json.Value): (r: Option<ProductEvent>)
    ensures r.Some? ==> 1 <= r.value.seqNo <= MAX_SAFE_INTEGER && KnownKind(r.value.kind) && r.value.data.Obj?
  {
    if !v.Obj? then None
    else
      var event, run, thread := TextField(v.fields, "event_id"), TextField(v.fields, "run_id"), TextField(v.fields, "thread_id");
      var kind, at := TextField(v.fields, "type"), TextField(v.fields, "occurred_at");
      var number, data := Lookup(v.fields, "seq"), Lookup(v.fields, "data");
      if event.None? || run.None? || thread.None? || kind.None? || at.None? then None
      else if number.None? || !number.value.Num? || number.value.n > MAX_SAFE_INTEGER || number.value.n < 1 then None
      else if !KnownKind(kind.value) || data.None? || !data.value.Obj? then None
      else Some(ProductEvent(event.value, run.value, thread.value, number.value.n, kind.value, at.value, data.value))
  }

  predicate BlankAt(s: string, i: int) { 0 <= i < |s| - 1 && s[i] == '\n' && s[i + 1] == '\n' }

  /** Where the first blank line starts, or -1. */
  function Boundary(s: string): (r: int)
    ensures r >= -1
    ensures r == -1 ==> forall i :: !BlankAt(s, i)
    ensures r >= 0 ==> BlankAt(s, r) && forall i :: i < r ==> !BlankAt(s, i)
  {
    if |s| < 2 then -1
    else if BlankAt(s, 0) then 0
    else
      var r := Boundary(s[1..]);
      assert forall i :: i > 0 ==> BlankAt(s, i) == BlankAt(s[1..], i - 1);
      if r < 0 then -1 else r + 1
  }

  function Lines(s: string): (r: seq<string>)
    ensures |r| >= 1
  {
    if s == "" then [""]
    else if s[0] == '\n' then [""] + Lines(s[1..])
    else
      var rest := Lines(s[1..]);
      [[s[0]] + rest[0]] + rest[1..]
  }

  function Join(parts: seq<string>): string {
    if parts == [] then "" else if |parts| == 1 then parts[0] else parts[0] + "\n" + Join(parts[1..])
  }

  /** JavaScript's white space and line terminators. */
  predicate JsSpace(c: char) {
    var n := c as int;
    9 <= n <= 13 || n == 32 || n == 0xA0 || n == 0x1680 || 0x2000 <= n <= 0x200A
    || n == 0x2028 || n == 0x2029 || n == 0x202F || n == 0x205F || n == 0x3000 || n == 0xFEFF
  }

  predicate HasText(s: string) { exists i :: 0 <= i < |s| && !JsSpace(s[i]) }

  function TrimStart(s: string): string {
    if s != "" && JsSpace(s[0]) then TrimStart(s[1..]) else s
  }

  function DataLines(lines: seq<string>): seq<string> {
    if lines == [] then []
    else (if "data:" <= lines[0] then [TrimStart(lines[0][5..])] else []) + DataLines(lines[1..])
  }

  function DataOf(block: string): string { Join(DataLines(Lines(block))) }

  /** What one block delivers: nothing, or the one event its data lines hold. */
  function Flush(block: string): (r: seq<ProductEvent>)
    ensures |r| <= 1
  {
    var data := DataOf(block);
    if data == "" then []
    else
      match Json.Parse(data)
      case None => []
      case Some(v) => var e := ParseProductEvent(v); if e.None? then [] else [e.value]
  }

  function ReplaceCrLf(s: string): string {
    if s == "" then ""
    else if |s| >= 2 && s[0] == '\r' && s[1] == '\n' then "\n" + ReplaceCrLf(s[2..])
    else [s[0]] + ReplaceCrLf(s[1..])
  }

  function Received(chunks: seq<string>): string {
    if chunks == [] then "" else ReplaceCrLf(chunks[0]) + Received(chunks[1..])
  }

  /** What a whole received text delivers; `ended` says the body closed normally rather than with an error. */
  function Delivered(text: string, ended: bool): seq<ProductEvent>
    decreases |text|
  {
    var b := Boundary(text);
    if b >= 0 then Flush(text[..b]) + Delivered(text[b + 2..], ended)
    else if ended && HasText(text) then Flush(text)
    else []
  }

  lemma BoundaryExtends(s: string, more: string)
    requires Boundary(s) >= 0
    ensures Boundary(s + more) == Boundary(s)
  {
    var b := Boundary(s);
    assert BlankAt(s + more, b);
    assert forall i :: i < b ==> BlankAt(s + more, i) == BlankAt(s, i);
  }

  lemma FirstBlock(buffer: string, rest: string, ended: bool)
    requires Boundary(buffer) >= 0
    ensures var b := Boundary(buffer);
      Delivered(buffer + rest, ended) == Flush(buffer[..b]) + Delivered(buffer[b + 2..] + rest, ended)
  {
    var b := Boundary(buffer);
    BoundaryExtends(buffer, rest);
    assert (buffer + rest)[..b] == buffer[..b];
    assert (buffer + rest)[b + 2..] == buffer[b + 2..] + rest;
  }

  lemma Assoc(a: seq<ProductEvent>, b: seq<ProductEvent>, c: seq<ProductEvent>)
    ensures a + (b + c) == a + b + c
  {}

  lemma ReceiveOne(buffer: string, chunks: seq<string>, i: nat)
    requires i < |chunks|
    ensures buffer + Received(chunks[i..]) == (buffer + ReplaceCrLf(chunks[i])) + Received(chunks[i + 1..])
  {
    assert chunks[i..][1..] == chunks[i + 1..];
  }

  /** What was delivered and what the text still holds make up everything owed. */
  ghost predicate Owes(delivered: seq<ProductEvent>, text: string, ended: bool, all: seq<ProductEvent>) {
    delivered + Delivered(text, ended) == all
  }

  /** The reader: whatever the chunks, it delivers what the concatenated text delivers. */
  method ReadSseEvents(chunks: seq<string>, ended: bool) returns (delivered: seq<ProductEvent>)
    ensures delivered == Delivered(Received(chunks), ended)
  {
    var buffer := "";
    delivered := [];
    var i := 0;
    ghost var all := Delivered(Received(chunks), ended);
    assert chunks[0..] == chunks && buffer + Received(chunks) == Received(chunks);
    while i < |chunks|
      invariant i <= |chunks| && Boundary(buffer) < 0
      invariant Owes(delivered, buffer + Received(chunks[i..]), ended, all)
    {
      ReceiveOne(buffer, chunks, i);
      buffer, delivered := DrainBuffer(buffer + ReplaceCrLf(chunks[i]), delivered, ended, Received(chunks[i + 1..]), all);
      i := i + 1;
    }
    DeliverLast(buffer, chunks, ended);
    if ended && HasText(buffer) {
      delivered := delivered + Flush(buffer);
    }
  }

  /** Deliver every whole block of the buffer; `rest` is the text still to come. */
  method DrainBuffer(filled: string, before: seq<ProductEvent>, ghost ended: bool, ghost rest: string,
                     ghost all: seq<ProductEvent>)
    returns (buffer: string, delivered: seq<ProductEvent>)
    requires Owes(before, filled + rest, ended, all)
    ensures Boundary(buffer) < 0 && Owes(delivered, buffer + rest, ended, all)
  {
    buffer, delivered := filled, before;
    var boundary := Boundary(buffer);
    while boundary >= 0
      invariant boundary == Boundary(buffer) && Owes(delivered, buffer + rest, ended, all)
      decreases |buffer|
    {
      FirstBlock(buffer, rest, ended);
      var found := Flush(buffer[..boundary]);
      Assoc(delivered, found, Delivered(buffer[boundary + 2..] + rest, ended));
      delivered := delivered + found;
      buffer := buffer[boundary + 2..];
      boundary := Boundary(buffer);
    }
  }

  lemma DeliverLast(buffer: string, chunks: seq<string>, ended: bool)
    requires Boundary(buffer) < 0
    ensures Delivered(buffer + Received(chunks[|chunks|..]), ended) ==
      if ended && HasText(buffer) then Flush(buffer) else []
  {
    assert chunks[|chunks|..] == [] && buffer + "" == buffer;
  }

  // ----- one frame -----

  predicate Printable(e: ProductEvent) { e.seqNo >= 1 && KnownKind(e.kind) && e.data.Obj? }

  predicate AllPrintable(items: seq<Item>) {
    forall i :: 0 <= i < |items| && items[i].Event? ==> Printable(items[i].event)
  }

  lemma KindOneLine(kind: string)
    requires KnownKind(kind)
    ensures Json.OneLine(kind)
  {
    if kind == "run.started" {
    } else if kind == "tool.started" {
    } else if kind == "tool.finished" {
    } else if kind == "message.delta" {
    } else if kind == "source.added" {
    } else if kind == "message.completed" {
    } else if kind == "run.completed" {
    } else if kind == "run.failed" {
    }
  }

  lemma ParseEnvelope(e: ProductEvent)
    requires Printable(e)
    ensures ParseProductEvent(Envelope(e)) == if e.seqNo <= MAX_SAFE_INTEGER then Some(e) else None
  {
    var f := Envelope(e).fields;
    LookupAt(f, 0);
    LookupAt(f, 1);
    LookupAt(f, 2);
    LookupAt(f, 3);
    LookupAt(f, 4);
    LookupAt(f, 5);
    LookupAt(f, 6);
  }

  lemma {:induction false} LookupAt(fields: seq<Json.Field>, i: nat)
    requires i < |fields| && forall j :: i < j < |fields| ==> fields[j].name != fields[i].name
    ensures Lookup(fields, fields[i].name) == Some(fields[i].value)
    decreases |fields|
  {
    if i < |fields| - 1 { LookupAt(fields[..|fields| - 1], i); }
  }

  lemma {:induction false} LinesCons(h: string, rest: string)
    requires Json.OneLine(h)
    ensures Lines(h + "\n" + rest) == [h] + Lines(rest)
  {
    var s := h + "\n" + rest;
    if h == "" {
      assert s[1..] == rest;
    } else {
      assert s[1..] == h[1..] + "\n" + rest;
      LinesCons(h[1..], rest);
      assert h == [h[0]] + h[1..];
    }
  }

  lemma {:induction false} LinesOne(h: string)
    requires Json.OneLine(h)
    ensures Lines(h) == [h]
  {
    if h != "" {
      LinesOne(h[1..]);
      assert h == [h[0]] + h[1..];
    }
  }

  lemma DataLinesCons(h: string, rest: seq<string>)
    ensures DataLines([h] + rest) == (if "data:" <= h then [TrimStart(h[5..])] else []) + DataLines(rest)
  {
    assert ([h] + rest)[1..] == rest;
  }

  /** A line that is not a data line adds nothing to a block. */
  lemma OtherLine(h: string, rest: string)
    requires Json.OneLine(h) && !("data:" <= h)
    ensures DataOf(h + "\n" + rest) == DataOf(rest) && DataOf(h) == ""
  {
    LinesCons(h, rest);
    LinesOne(h);
    DataLinesCons(h, Lines(rest));
    DataLinesCons(h, []);
    assert [h] + [] == [h] && [] + DataLines(Lines(rest)) == DataLines(Lines(rest));
  }

  lemma LastLine(h: string)
    requires Json.OneLine(h)
    ensures DataOf(h) == if "data:" <= h then TrimStart(h[5..]) else ""
    ensures DataOf(h + "\n") == DataOf(h)
  {
    LinesOne(h);
    LinesCons(h, "");
    assert h + "\n" + "" == h + "\n";
    DataLinesCons(h, []);
    DataLinesCons(h, [""]);
    DataLinesCons("", []);
    assert [h] + [] == [h] && [""] + [] == [""];
  }

  /** The frame of an event up to its blank line. */
  function Body(e: ProductEvent): string { IdLine(e) + "\n" + TypeLine(e) + "\n" + DataLine(e) }

  lemma BodyLines(e: ProductEvent)
    requires Printable(e)
    ensures Json.OneLine(IdLine(e)) && Json.OneLine(TypeLine(e)) && Json.OneLine(DataLine(e))
  {
    Json.NatOneLine(e.seqNo);
    KindOneLine(e.kind);
    Json.PrintOneLine(Envelope(e));
  }

  /** A block cut after `n` characters of its data line holds the cut JSON text. */
  lemma CutDataLine(e: ProductEvent, n: nat)
    requires Printable(e) && n <= |DataLine(e)|
    ensures DataOf(DataLine(e)[..n]) == if n < 6 then "" else Json.Print(Envelope(e))[..n - 6]
  {
    BodyLines(e);
    var line, json := DataLine(e), Json.Print(Envelope(e));
    var cut := line[..n];
    LastLine(cut);
    if n >= 6 {
      assert "data:" <= cut && cut[5..] == " " + json[..n - 6];
      assert (" " + json[..n - 6])[1..] == json[..n - 6];
      assert json[0] == '{';
    } else if n == 5 {
      assert cut[5..] == "";
    }
  }

  lemma FlushData(block: string, e: ProductEvent)
    requires Printable(e) && DataOf(block) == Json.Print(Envelope(e))
    ensures Flush(block) == if e.seqNo <= MAX_SAFE_INTEGER then [e] else []
  {
    Json.ParsePrint(Envelope(e));
    ParseEnvelope(e);
  }

  lemma FlushCut(block: string, e: ProductEvent, n: nat)
    requires n < |Json.Print(Envelope(e))| && DataOf(block) == Json.Print(Envelope(e))[..n]
    ensures Flush(block) == []
  {
    Json.CutObjectDoesNotParse(Envelope(e).fields, n);
  }

  function Readable(items: seq<Item>): seq<ProductEvent> {
    if items == [] then []
    else (if items[0].Event? && items[0].event.seqNo <= MAX_SAFE_INTEGER then [items[0].event] else []) + Readable(items[1..])
  }

  /** The text of an item before its blank line, and its data line's payload. */
  function ItemBody(item: Item): string {
    match item
    case Event(e) => Body(e)
    case KeepAlive => ": keep-alive"
  }

  lemma ItemShape(item: Item)
    requires item.Event? ==> Printable(item.event)
    ensures var b := ItemBody(item);
      && PrintItem(item) == b + "\n\n" && b != "" && b[|b| - 1] != '\n'
      && (forall i :: !BlankAt(b + "\n", i))
      && (forall i :: 0 <= i < |b| ==> b[i] != '\r')
  {
    match item
    case KeepAlive =>
    case Event(e) => FrameShape(e);
  }

  lemma FrameShape(e: ProductEvent)
    requires Printable(e)
    ensures Frame(e) == Body(e) + "\n\n" && Body(e) != "" && Body(e)[|Body(e)| - 1] != '\n'
    ensures forall i :: !BlankAt(Body(e) + "\n", i)
    ensures forall i :: 0 <= i < |Body(e)| ==> Body(e)[i] != '\r'
  {
    BodyLines(e);
    ThreeLines(IdLine(e), TypeLine(e), DataLine(e));
  }

  /** Three lines that are not empty leave no blank line. */
  lemma ThreeLines(a: string, b: string, c: string)
    requires Json.OneLine(a) && Json.OneLine(b) && Json.OneLine(c) && a != "" && b != "" && c != ""
    ensures var body := a + "\n" + b + "\n" + c;
      && body[|body| - 1] != '\n' && (forall i :: !BlankAt(body + "\n", i))
      && forall i :: 0 <= i < |body| ==> body[i] != '\r'
  {}

  /** A prefix of an item that lacks its blank line delivers the item's event or nothing. */
  lemma CutItem(item: Item, n: nat)
    requires item.Event? ==> Printable(item.event)
    requires n <= |ItemBody(item)| + 1
    ensures Flush((ItemBody(item) + "\n")[..n]) <= Readable([item])
    ensures n >= |ItemBody(item)| ==> Flush((ItemBody(item) + "\n")[..n]) == Readable([item])
  {
    match item
    case KeepAlive =>
      CutPlain(": keep-alive", n);
      assert [item][1..] == [];
    case Event(e) => CutFrame(e, n);
  }

  lemma CutPlain(line: string, n: nat)
    requires Json.OneLine(line) && line != "" && line[0] != 'd' && n <= |line| + 1
    ensures Flush((line + "\n")[..n]) == []
  {
    if n <= |line| {
      assert (line + "\n")[..n] == line[..n];
      LastLine(line[..n]);
    } else {
      assert (line + "\n")[..n] == line + "\n";
      LastLine(line);
    }
  }

  /** Where a cut falls in three lines. */
  lemma CutThree(a: string, b: string, c: string, n: nat)
    requires n <= |a| + |b| + |c| + 3
    ensures var cut := (a + "\n" + b + "\n" + c + "\n")[..n];
      && (n <= |a| ==> cut == a[..n])
      && (|a| < n <= |a| + 1 + |b| ==> cut == a + "\n" + b[..n - |a| - 1])
      && (|a| + 1 + |b| < n ==> cut == a + "\n" + (b + "\n" + (c + "\n")[..n - |a| - |b| - 2]))
  {}

  lemma CutFrame(e: ProductEvent, n: nat)
    requires Printable(e) && n <= |Body(e)| + 1
    ensures Flush((Body(e) + "\n")[..n]) <= Readable([Event(e)])
    ensures n >= |Body(e)| ==> Flush((Body(e) + "\n")[..n]) == Readable([Event(e)])
  {
    BodyLines(e);
    var id, kind, data := IdLine(e), TypeLine(e), DataLine(e);
    var cut := (Body(e) + "\n")[..n];
    CutThree(id, kind, data, n);
    if n <= |id| {
      LastLine(cut);
    } else if n <= |id| + 1 + |kind| {
      OtherLine(id, kind[..n - |id| - 1]);
      LastLine(kind[..n - |id| - 1]);
    } else {
      var k := n - |id| - |kind| - 2;
      var rest := (data + "\n")[..k];
      OtherLine(id, kind + "\n" + rest);
      OtherLine(kind, rest);
      CutData(e, cut, k);
      OneReadable(e);
    }
  }

  lemma OneReadable(e: ProductEvent)
    ensures Readable([Event(e)]) == if e.seqNo <= MAX_SAFE_INTEGER then [e] else []
  {
    assert [Event(e)][1..] == [];
  }

  lemma CutData(e: ProductEvent, block: string, k: nat)
    requires Printable(e) && k <= |DataLine(e)| + 1
    requires DataOf(block) == DataOf((DataLine(e) + "\n")[..k])
    ensures k >= |DataLine(e)| ==> Flush(block) == if e.seqNo <= MAX_SAFE_INTEGER then [e] else []
    ensures k < |DataLine(e)| ==> Flush(block) == []
  {
    var data := DataLine(e);
    var json := Json.Print(Envelope(e));
    if k >= |data| {
      BodyLines(e);
      LastLine(data);
      CutDataLine(e, |data|);
      assert data[..|data|] == data && json[..|json|] == json;
      assert (data + "\n")[..k] == if k == |data| then data else data + "\n";
      FlushData(block, e);
    } else {
      assert (data + "\n")[..k] == data[..k];
      CutDataLine(e, k);
      if k >= 6 { FlushCut(block, e, k - 6); }
    }
  }

  // ----- whole streams -----

  lemma FirstItem(item: Item, rest: string, ended: bool)
    requires item.Event? ==> Printable(item.event)
    ensures Delivered(PrintItem(item) + rest, ended) == Readable([item]) + Delivered(rest, ended)
  {
    var b := ItemBody(item);
    var text := PrintItem(item) + rest;
    ItemShape(item);
    assert BlankAt(text, |b|);
    forall i | i < |b| ensures !BlankAt(text, i) {
      assert !BlankAt(b + "\n", i);
    }
    assert Boundary(text) == |b|;
    assert text[..|b|] == b && text[|b| + 2..] == rest;
    CutItem(item, |b|);
    assert (b + "\n")[..|b|] == b;
  }

  lemma CutFirstItem(item: Item, n: nat, ended: bool)
    requires item.Event? ==> Printable(item.event)
    requires n < |PrintItem(item)|
    ensures Delivered(PrintItem(item)[..n], ended) <= Readable([item])
  {
    var b := ItemBody(item);
    var text := PrintItem(item)[..n];
    ItemShape(item);
    assert text == (b + "\n")[..n];
    forall i ensures !BlankAt(text, i) {
      assert !BlankAt(b + "\n", i);
    }
    CutItem(item, n);
  }

  lemma ReadableCons(items: seq<Item>)
    requires items != []
    ensures Readable(items) == Readable([items[0]]) + Readable(items[1..])
  {
    assert [items[0]][1..] == [];
  }

  /** Cut anywhere, a stream delivers a prefix of its events; whole, all of them. */
  lemma {:induction false} WireCut(items: seq<Item>, text: string, ended: bool)
    requires AllPrintable(items) && text <= Wire(items)
    ensures Delivered(text, ended) <= Readable(items)
    ensures text == Wire(items) ==> Delivered(text, ended) == Readable(items)
  {
    if items == [] {
      assert text == "";
    } else {
      var first, others := PrintItem(items[0]), items[1..];
      ReadableCons(items);
      assert Wire(items) == first + Wire(others);
      if |text| >= |first| {
        var rest := text[|first|..];
        PastFirst(first, Wire(others), text);
        FirstItem(items[0], rest, ended);
        WireCut(others, rest, ended);
      } else {
        WithinFirst(first, Wire(others), text);
        CutFirstItem(items[0], |text|, ended);
      }
    }
  }

  lemma WithinFirst(first: string, more: string, text: string)
    requires |text| < |first| && text <= first + more
    ensures text == first[..|text|]
  {}

  lemma PastFirst(first: string, more: string, text: string)
    requires |text| >= |first| && text <= first + more
    ensures text == first + text[|first|..] && text[|first|..] <= more
    ensures text == first + more ==> text[|first|..] == more
  {}

  lemma {:induction false} NoCarriageReturns(items: seq<Item>)
    requires AllPrintable(items)
    ensures forall i :: 0 <= i < |Wire(items)| ==> Wire(items)[i] != '\r'
  {
    if items != [] {
      ItemShape(items[0]);
      NoCarriageReturns(items[1..]);
    }
  }

  lemma {:induction false} NothingToReplace(s: string)
    requires forall i :: 0 <= i < |s| ==> s[i] != '\r'
    ensures ReplaceCrLf(s) == s
  {
    if s != "" { NothingToReplace(s[1..]); }
  }

  lemma {:induction false} ReceivedAsSent(chunks: seq<string>)
    requires forall i :: 0 <= i < |Flatten(chunks)| ==> Flatten(chunks)[i] != '\r'
    ensures Received(chunks) == Flatten(chunks)
  {
    if chunks != [] {
      var all, rest := Flatten(chunks), Flatten(chunks[1..]);
      forall i | 0 <= i < |chunks[0]| ensures chunks[0][i] != '\r' { assert all[i] == chunks[0][i]; }
      forall i | 0 <= i < |rest| ensures rest[i] != '\r' { assert all[|chunks[0]| + i] == rest[i]; }
      NothingToReplace(chunks[0]);
      ReceivedAsSent(chunks[1..]);
    }
  }

  // ----- main results -----

  /**
    Printed, split into any chunks and read back: exactly the events whose number a
    JavaScript client can represent, in order, keep-alives ignored.
  */
  lemma SseRoundTrip(items: seq<Item>, chunks: seq<string>, ended: bool)
    requires AllPrintable(items) && Flatten(chunks) == Wire(items)
    ensures Delivered(Received(chunks), ended) == Readable(items)
  {
    NoCarriageReturns(items);
    ReceivedAsSent(chunks);
    WireCut(items, Wire(items), ended);
  }

  /** Cut at any point and ended in any way, the stream delivers a prefix of those events. */
  lemma SseCutDeliversPrefix(items: seq<Item>, chunks: seq<string>, ended: bool)
    requires AllPrintable(items) && Flatten(chunks) <= Wire(items)
    ensures Delivered(Received(chunks), ended) <= Readable(items)
  {
    NoCarriageReturns(items);
    forall i | 0 <= i < |Flatten(chunks)| ensures Flatten(chunks)[i] != '\r' { assert Flatten(chunks)[i] == Wire(items)[i]; }
    ReceivedAsSent(chunks);
    WireCut(items, Flatten(chunks), ended);
  }

  function EventsOf(items: seq<Item>): (r: seq<ProductEvent>) {
    if items == [] then [] else (if items[0].Event? then [items[0].event] else []) + EventsOf(items[1..])
  }

  /** Nothing is lost exactly when every event number is a safe integer. */
  lemma {:induction false} NothingLostIff(items: seq<Item>)
    ensures |Readable(items)| <= |EventsOf(items)|
    ensures Readable(items) == EventsOf(items) <==>
      forall i :: 0 <= i < |items| && items[i].Event? ==> items[i].event.seqNo <= MAX_SAFE_INTEGER
  {
    if items != [] {
      var rest := items[1..];
      NothingLostIff(rest);
      if items[0].Event? && items[0].event.seqNo > MAX_SAFE_INTEGER {
        assert |Readable(items)| < |EventsOf(items)|;
      } else {
        var head := if items[0].Event? then [items[0].event] else [];
        assert Readable(items)[|head|..] == Readable(rest) && EventsOf(items)[|head|..] == EventsOf(rest);
        assert (forall i :: 0 <= i < |items| && items[i].Event? ==> items[i].event.seqNo <= MAX_SAFE_INTEGER) <==>
          (forall i :: 0 <= i < |rest| && rest[i].Event? ==> rest[i].event.seqNo <= MAX_SAFE_INTEGER) by {
          assert forall i :: 0 <= i < |rest| ==> rest[i] == items[i + 1];
          assert forall i :: 0 < i < |items| ==> items[i] == rest[i - 1];
        }
      }
    }
  }

  /**
    The first event lost: printed whole and well formed, and still nothing is delivered, because its number
    is 2^53.
  */
  lemma DroppedEventExample(ended: bool)
    ensures var e := ProductEvent("e", "r", "t", 0x20_0000_0000_0000, "message.delta", "", Json.Obj([]));
      Printable(e) && Delivered(Received([Wire([Event(e)])]), ended) == [] && EventsOf([Event(e)]) == [e]
  {
    var e := ProductEvent("e", "r", "t", 0x20_0000_0000_0000, "message.delta", "", Json.Obj([]));
    var wire := Wire([Event(e)]);
    assert [wire][1..] == [] && Flatten([wire]) == wire;
    SseRoundTrip([Event(e)], [wire], ended);
    assert [Event(e)][1..] == [];
  }
}
