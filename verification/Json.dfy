/**
  The JSON the event stream carries: the writer (json.dumps with ensure_ascii=False and
  compact separators) and a reader for the same values (JSON.parse).
*/
module Json {
  import opened Common

  datatype Value =
    | Null
    | Bool(b: bool)
    | Num(n: int)
    | Str(s: string)
    | Arr(items: seq<Value>)
    | Obj(fields: seq<Field>)

  datatype Field = Field(name: string, value: Value)

  // ----- the writer -----

  function HexChar(n: nat): char
    requires n < 16
  {
    if n < 10 then '0' + n as char else 'a' + (n - 10) as char
  }

  /** Quotes, backslashes and control characters are escaped; everything else is written as it is. */
  function EscapeChar(c: char): (r: string) {
    if c == '\"' then "\\\""
    else if c == '\\' then "\\\\"
    else if c == '\n' then "\\n"
    else if c == '\r' then "\\r"
    else if c == '\t' then "\\t"
    else if c == 12 as char then "\\f"
    else if c == 8 as char then "\\b"
    else if c < ' ' then "\\u00" + [HexChar(c as int / 16), HexChar(c as int % 16)]
    else [c]
  }

  function Escape(s: string): string {
    if s == "" then "" else EscapeChar(s[0]) + Escape(s[1..])
  }

  function PrintNat(n: nat): (r: string)
    ensures |r| >= 1
  {
    (if n < 10 then "" else PrintNat(n / 10)) + [HexChar(n % 10)]
  }

  function PrintInt(n: int): string { if n < 0 then "-" + PrintNat(-n) else PrintNat(n) }

  function PrintString(s: string): string { "\"" + Escape(s) + "\"" }

  function Print(v: Value): (r: string)
    decreases v
  {
    match v
    case Null => "null"
    case Bool(b) => if b then "true" else "false"
    case Num(n) => PrintInt(n)
    case Str(s) => PrintString(s)
    case Arr(items) => "[" + PrintItems(items) + "]"
    case Obj(fields) => "{" + PrintFields(fields) + "}"
  }

  function PrintItems(items: seq<Value>): string
    decreases items
  {
    if items == [] then "" else Print(items[0]) + (if |items| == 1 then "" else "," + PrintItems(items[1..]))
  }

  function PrintField(f: Field): string
    decreases f
  {
    PrintString(f.name) + ":" + Print(f.value)
  }

  function PrintFields(fields: seq<Field>): string
    decreases fields
  {
    if fields == [] then ""
    else PrintField(fields[0]) + (if |fields| == 1 then "" else "," + PrintFields(fields[1..]))
  }

  // ----- the reader -----

  datatype Parsed<+T> = Parsed(value: T, rest: string)

  predicate Space(c: char) { c == ' ' || c == '\n' || c == '\r' || c == '\t' }

  function Skip(s: string): (r: string)
    ensures |r| <= |s| && (r != "" ==> !Space(r[0]))
  {
    if s != "" && Space(s[0]) then Skip(s[1..]) else s
  }

  predicate Digit(c: char) { '0' <= c <= '9' }

  function DigitValue(c: char): nat
    requires Digit(c)
  {
    c as int - '0' as int
  }

  function HexValue(c: char): Option<nat> {
    if Digit(c) then Some(DigitValue(c))
    else if 'a' <= c <= 'f' then Some((c - 'a') as int + 10)
    else if 'A' <= c <= 'F' then Some((c - 'A') as int + 10)
    else None
  }

  /** The character of a four-digit escape; surrogate halves are not characters here. */
  function Unicode(a: char, b: char, c: char, d: char): Option<char> {
    var w, x, y, z := HexValue(a), HexValue(b), HexValue(c), HexValue(d);
    if w.None? || x.None? || y.None? || z.None? then None
    else
      var n := w.value * 4096 + x.value * 256 + y.value * 16 + z.value;
      if 0 <= n < 0xD800 || 0xE000 <= n < 0x10000 then Some(n as char) else None
  }

  function Unescape(c: char): Option<char> {
    if c == '\"' || c == '\\' || c == '/' then Some(c)
    else if c == 'n' then Some('\n')
    else if c == 'r' then Some('\r')
    else if c == 't' then Some('\t')
    else if c == 'f' then Some(12 as char)
    else if c == 'b' then Some(8 as char)
    else None
  }

  /** One character of a string literal and what follows it. */
  function StringChar(s: string): (r: Option<Parsed<char>>)
    ensures r.Some? ==> |r.value.rest| < |s|
  {
    if s == "" || s[0] == '\"' || s[0] < ' ' then None
    else if s[0] != '\\' then Some(Parsed(s[0], s[1..]))
    else if |s| >= 6 && s[1] == 'u' then
      var c := Unicode(s[2], s[3], s[4], s[5]);
      if c.None? then None else Some(Parsed(c.value, s[6..]))
    else if |s| >= 2 && Unescape(s[1]).Some? then Some(Parsed(Unescape(s[1]).value, s[2..]))
    else None
  }

  /** The rest of a string literal after its opening quote. */
  function StringBody(s: string): (r: Option<Parsed<string>>)
    ensures r.Some? ==> |r.value.rest| < |s|
  {
    if s != "" && s[0] == '\"' then Some(Parsed("", s[1..]))
    else
      var c := StringChar(s);
      if c.None? then None
      else
        var more := StringBody(c.value.rest);
        if more.None? then None else Some(Parsed([c.value.value] + more.value.value, more.value.rest))
  }

  function DigitsOf(s: string): (r: string)
    ensures |r| <= |s| && r == s[..|r|]
    ensures forall i :: 0 <= i < |r| ==> Digit(r[i])
    ensures |r| < |s| ==> !Digit(s[|r|])
  {
    if s != "" && Digit(s[0]) then [s[0]] + DigitsOf(s[1..]) else ""
  }

  function NatOf(digits: string): nat
    requires forall i :: 0 <= i < |digits| ==> Digit(digits[i])
  {
    if digits == "" then 0
    else NatOf(digits[..|digits| - 1]) * 10 + DigitValue(digits[|digits| - 1])
  }

  /** A character that would continue a number. */
  predicate Numeric(c: char) { Digit(c) || c == '.' || c == 'e' || c == 'E' }

  /** Whole numbers only: no leading zero, and a fraction or exponent is refused. */
  function Natural(s: string): (r: Option<Parsed<nat>>)
    ensures r.Some? ==> |r.value.rest| < |s|
  {
    var d := DigitsOf(s);
    if d == "" || (|d| > 1 && d[0] == '0') || (|d| < |s| && Numeric(s[|d|])) then None
    else Some(Parsed(NatOf(d), s[|d|..]))
  }

  function Literal(s: string, word: string, v: Value): (r: Option<Parsed<Value>>)
    requires word != ""
    ensures r.Some? ==> |r.value.rest| < |s|
  {
    if word <= s then Some(Parsed(v, s[|word|..])) else None
  }

  function Read(s: string): (r: Option<Parsed<Value>>)
    ensures r.Some? ==> |r.value.rest| < |s|
    decreases |s|, 1
  {
    var t := Skip(s);
    if t == "" then None
    else if t[0] == '\"' then
      var b := StringBody(t[1..]);
      if b.None? then None else Some(Parsed(Str(b.value.value), b.value.rest))
    else if t[0] == '[' then
      var u := Skip(t[1..]);
      if u != "" && u[0] == ']' then Some(Parsed(Arr([]), u[1..]))
      else
        var items := ReadItems(t[1..]);
        if items.None? then None else Some(Parsed(Arr(items.value.value), items.value.rest))
    else if t[0] == '{' then
      var u := Skip(t[1..]);
      if u != "" && u[0] == '}' then Some(Parsed(Obj([]), u[1..]))
      else
        var fields := ReadFields(t[1..]);
        if fields.None? then None else Some(Parsed(Obj(fields.value.value), fields.value.rest))
    else if t[0] == '-' then
      var n := Natural(t[1..]);
      if n.None? then None else Some(Parsed(Num(0 - n.value.value), n.value.rest))
    else if Digit(t[0]) then
      var n := Natural(t);
      if n.None? then None else Some(Parsed(Num(n.value.value), n.value.rest))
    else if t[0] == 'n' then Literal(t, "null", Null)
    else if t[0] == 't' then Literal(t, "true", Bool(true))
    else if t[0] == 'f' then Literal(t, "false", Bool(false))
    else None
  }

  /** Array items up to and including the closing bracket. */
  function ReadItems(s: string): (r: Option<Parsed<seq<Value>>>)
    ensures r.Some? ==> |r.value.rest| < |s|
    decreases |s|, 2
  {
    var v := Read(s);
    if v.None? then None
    else
      var t := Skip(v.value.rest);
      if t == "" then None
      else if t[0] == ']' then Some(Parsed([v.value.value], t[1..]))
      else if t[0] == ',' then
        var more := ReadItems(t[1..]);
        if more.None? then None else Some(Parsed([v.value.value] + more.value.value, more.value.rest))
      else None
  }

  /** A name and its colon. */
  function ReadName(s: string): (r: Option<Parsed<string>>)
    ensures r.Some? ==> |r.value.rest| < |s|
  {
    var t := Skip(s);
    if t == "" || t[0] != '\"' then None
    else
      var name := StringBody(t[1..]);
      if name.None? then None
      else
        var u := Skip(name.value.rest);
        if u == "" || u[0] != ':' then None else Some(Parsed(name.value.value, u[1..]))
  }

  function ReadField(s: string): (r: Option<Parsed<Field>>)
    ensures r.Some? ==> |r.value.rest| < |s|
    decreases |s|, 2
  {
    var name := ReadName(s);
    if name.None? then None
    else
      var v := Read(name.value.rest);
      if v.None? then None else Some(Parsed(Field(name.value.value, v.value.value), v.value.rest))
  }

  /** Object fields up to and including the closing brace. */
  function ReadFields(s: string): (r: Option<Parsed<seq<Field>>>)
    ensures r.Some? ==> |r.value.rest| < |s|
    decreases |s|, 3
  {
    var f := ReadField(s);
    if f.None? then None
    else
      var t := Skip(f.value.rest);
      if t == "" then None
      else if t[0] == '}' then Some(Parsed([f.value.value], t[1..]))
      else if t[0] == ',' then
        var more := ReadFields(t[1..]);
        if more.None? then None else Some(Parsed([f.value.value] + more.value.value, more.value.rest))
      else None
  }

  /** A whole text is one value with only blanks around it. */
  function Parse(text: string): Option<Value> {
    var v := Read(text);
    if v.None? || Skip(v.value.rest) != "" then None else Some(v.value.value)
  }

  // ----- reading back what was written -----

  lemma CharRoundTrip(c: char, rest: string)
    ensures StringChar(EscapeChar(c) + rest) == Some(Parsed(c, rest))
    ensures EscapeChar(c) != "" && EscapeChar(c)[0] != '\"'
  {
    var s := EscapeChar(c) + rest;
    if c < ' ' && |EscapeChar(c)| == 6 {
      assert s[2] == '0' && s[3] == '0' && s[4] == HexChar(c as int / 16) && s[5] == HexChar(c as int % 16);
      HexDigit(c as int / 16);
      HexDigit(c as int % 16);
      assert s[6..] == rest;
    } else if |EscapeChar(c)| == 2 {
      assert s[2..] == rest;
    } else {
      assert s[1..] == rest;
    }
  }

  lemma HexDigit(n: nat)
    requires n < 16
    ensures HexValue(HexChar(n)) == Some(n)
  {}

  lemma StringStep(s: string, c: char, after: string)
    requires s != "" && s[0] != '\"' && StringChar(s) == Some(Parsed(c, after)) && StringBody(after).Some?
    ensures StringBody(s) == Some(Parsed([c] + StringBody(after).value.value, StringBody(after).value.rest))
  {}

  lemma {:induction false} StringRoundTrip(s: string, rest: string)
    ensures StringBody(Escape(s) + "\"" + rest) == Some(Parsed(s, rest))
  {
    if s != "" {
      var after := Escape(s[1..]) + "\"" + rest;
      Assoc(EscapeChar(s[0]), Escape(s[1..]), "\"");
      Assoc(EscapeChar(s[0]), Escape(s[1..]) + "\"", rest);
      CharRoundTrip(s[0], after);
      StringRoundTrip(s[1..], rest);
      StringStep(EscapeChar(s[0]) + after, s[0], after);
      assert s == [s[0]] + s[1..];
    } else {
      assert Escape(s) + "\"" + rest == "\"" + rest;
      assert ("\"" + rest)[1..] == rest;
    }
  }

  predicate EndsNumber(rest: string) { rest == "" || !Numeric(rest[0]) }

  lemma NatOfAppend(d: string, c: char)
    requires Digit(c) && forall i :: 0 <= i < |d| ==> Digit(d[i])
    ensures forall i :: 0 <= i < |d + [c]| ==> Digit((d + [c])[i])
    ensures NatOf(d + [c]) == NatOf(d) * 10 + DigitValue(c)
  {
    assert (d + [c])[..|d|] == d;
  }

  lemma PrintNatEnds(n: nat)
    ensures PrintNat(n) == (if n < 10 then "" else PrintNat(n / 10)) + [HexChar(n % 10)]
    ensures Digit(HexChar(n % 10)) && DigitValue(HexChar(n % 10)) == n % 10
  {}

  lemma {:induction false} NatDigits(n: nat)
    ensures forall i :: 0 <= i < |PrintNat(n)| ==> Digit(PrintNat(n)[i])
    ensures NatOf(PrintNat(n)) == n
  {
    var front := if n < 10 then "" else PrintNat(n / 10);
    if n >= 10 { NatDigits(n / 10); }
    PrintNatEnds(n);
    NatOfAppend(front, HexChar(n % 10));
  }

  lemma {:induction false} NoLeadingZero(n: nat)
    ensures PrintNat(n)[0] == '0' ==> n == 0 && |PrintNat(n)| == 1
  {
    PrintNatEnds(n);
    if n >= 10 { NoLeadingZero(n / 10); }
  }

  lemma {:induction false} DigitsThen(d: string, rest: string)
    requires forall i :: 0 <= i < |d| ==> Digit(d[i])
    requires rest == "" || !Digit(rest[0])
    ensures DigitsOf(d + rest) == d
  {
    if d != "" {
      assert (d + rest)[1..] == d[1..] + rest;
      DigitsThen(d[1..], rest);
    } else {
      assert d + rest == rest;
    }
  }

  lemma NaturalRoundTrip(n: nat, rest: string)
    requires EndsNumber(rest)
    ensures Natural(PrintNat(n) + rest) == Some(Parsed(n, rest))
    ensures Digit(PrintNat(n)[0])
  {
    var d := PrintNat(n);
    NatDigits(n);
    NoLeadingZero(n);
    DigitsThen(d, rest);
    assert (d + rest)[|d|..] == rest;
  }

  lemma NumberRoundTrip(n: int, rest: string)
    requires EndsNumber(rest)
    ensures Read(PrintInt(n) + rest) == Some(Parsed(Num(n), rest))
  {
    if n < 0 {
      NegativeRoundTrip(-n, rest);
    } else {
      NaturalRoundTrip(n, rest);
      ReadsDigits(PrintNat(n) + rest);
    }
  }

  lemma NegativeRoundTrip(n: nat, rest: string)
    requires EndsNumber(rest) && n > 0
    ensures Read(PrintInt(0 - n) + rest) == Some(Parsed(Num(0 - n), rest))
  {
    NaturalRoundTrip(n, rest);
    ReadsNegative(PrintNat(n) + rest);
    Assoc("-", PrintNat(n), rest);
  }

  // What a reader does after the first character decides the kind of value.

  lemma ReadsNegative(s: string)
    requires Natural(s).Some?
    ensures Read("-" + s) == Some(Parsed(Num(0 - Natural(s).value.value), Natural(s).value.rest))
  {
    assert ("-" + s)[1..] == s;
  }

  lemma {:induction false} ReadsDigits(s: string)
    requires s != "" && Digit(s[0]) && Natural(s).Some?
    ensures Read(s) == Some(Parsed(Num(Natural(s).value.value), Natural(s).value.rest))
  {}

  lemma ReadsWord(v: Value, rest: string)
    requires v.Null? || v.Bool?
    ensures Read(Print(v) + rest) == Some(Parsed(v, rest))
  {
    var word := Print(v);
    assert word <= word + rest && (word + rest)[|word|..] == rest;
  }

  lemma Quoted(inside: string, rest: string)
    ensures "\"" + inside + "\"" + rest == "\"" + (inside + "\"" + rest)
  {}

  lemma {:induction false} ReadsString(s: string, rest: string)
    ensures Read(PrintString(s) + rest) == Some(Parsed(Str(s), rest))
  {
    StringRoundTrip(s, rest);
    Quoted(Escape(s), rest);
    assert (PrintString(s) + rest)[1..] == Escape(s) + "\"" + rest;
  }

  lemma ReadsArray(body: string)
    requires body != "" && !Space(body[0])
    ensures body[0] == ']' ==> Read("[" + body) == Some(Parsed(Arr([]), body[1..]))
    ensures body[0] != ']' && ReadItems(body).Some? ==>
      Read("[" + body) == Some(Parsed(Arr(ReadItems(body).value.value), ReadItems(body).value.rest))
  {
    assert ("[" + body)[1..] == body;
  }

  lemma ReadsObject(body: string)
    requires body != "" && !Space(body[0])
    ensures body[0] == '}' ==> Read("{" + body) == Some(Parsed(Obj([]), body[1..]))
    ensures body[0] != '}' && ReadFields(body).Some? ==>
      Read("{" + body) == Some(Parsed(Obj(ReadFields(body).value.value), ReadFields(body).value.rest))
  {
    assert ("{" + body)[1..] == body;
  }

  lemma ReadsLastItem(s: string, v: Value, after: string, rest: string)
    requires Read(s) == Some(Parsed(v, after)) && Skip(after) == "]" + rest
    ensures ReadItems(s) == Some(Parsed([v], rest))
  {
    assert ("]" + rest)[1..] == rest;
  }

  lemma ReadsNextItem(s: string, v: Value, after: string, body: string)
    requires Read(s) == Some(Parsed(v, after)) && Skip(after) == "," + body && ReadItems(body).Some?
    ensures ReadItems(s) == Some(Parsed([v] + ReadItems(body).value.value, ReadItems(body).value.rest))
  {
    assert ("," + body)[1..] == body;
  }

  lemma ReadsLastField(s: string, f: Field, after: string, rest: string)
    requires ReadField(s) == Some(Parsed(f, after)) && Skip(after) == "}" + rest
    ensures ReadFields(s) == Some(Parsed([f], rest))
  {
    assert ("}" + rest)[1..] == rest;
  }

  lemma ReadsNextField(s: string, f: Field, after: string, body: string)
    requires ReadField(s) == Some(Parsed(f, after)) && Skip(after) == "," + body && ReadFields(body).Some?
    ensures ReadFields(s) == Some(Parsed([f] + ReadFields(body).value.value, ReadFields(body).value.rest))
  {
    assert ("," + body)[1..] == body;
  }

  /** A written value starts with a character that is neither a blank nor a closing bracket. */
  lemma FirstChar(v: Value)
    ensures var p := Print(v); p != "" && !Space(p[0]) && p[0] != ']' && p[0] != '}'
  {
    if v.Num? {
      NatDigits(if v.n < 0 then -v.n else v.n);
    }
  }

  lemma {:induction false} ReadBack(v: Value, rest: string)
    requires EndsNumber(rest)
    ensures Read(Print(v) + rest) == Some(Parsed(v, rest))
    decreases v, 0
  {
    match v
    case Null => ReadsWord(v, rest);
    case Bool(b) => ReadsWord(v, rest);
    case Num(n) => NumberRoundTrip(n, rest);
    case Str(t) => ReadsString(t, rest);
    case Arr(items) => {
      ArrayText(items, rest);
      if items != [] { ReadBackItems(items, rest); }
      ReadsArray(PrintItems(items) + ("]" + rest));
    }
    case Obj(fields) => {
      ObjectText(fields, rest);
      if fields != [] { ReadBackFields(fields, rest); }
      ReadsObject(PrintFields(fields) + ("}" + rest));
    }
  }

  lemma ArrayText(items: seq<Value>, rest: string)
    ensures var body := PrintItems(items) + ("]" + rest);
      && Print(Arr(items)) + rest == "[" + body
      && !Space(body[0]) && (items == [] <==> body[0] == ']') && (items == [] ==> body[1..] == rest)
  {
    if items != [] {
      FirstChar(items[0]);
      assert PrintItems(items)[0] == Print(items[0])[0];
    } else {
      assert "" + ("]" + rest) == "]" + rest;
    }
  }

  lemma ObjectText(fields: seq<Field>, rest: string)
    ensures var body := PrintFields(fields) + ("}" + rest);
      && Print(Obj(fields)) + rest == "{" + body
      && !Space(body[0]) && (fields == [] <==> body[0] == '}') && (fields == [] ==> body[1..] == rest)
  {
    if fields != [] {
      FieldsUnfold(fields);
      assert PrintFields(fields)[0] == '\"';
    } else {
      assert "" + ("}" + rest) == "}" + rest;
    }
  }

  lemma ReadBackLastItem(v: Value, rest: string)
    ensures ReadItems(Print(v) + ("]" + rest)) == Some(Parsed([v], rest))
    decreases v, 3
  {
    ReadBack(v, "]" + rest);
    ReadsLastItem(Print(v) + ("]" + rest), v, "]" + rest, rest);
  }

  lemma ReadBackNextItem(v: Value, items: seq<Value>, body: string, rest: string)
    requires ReadItems(body) == Some(Parsed(items, rest))
    ensures ReadItems(Print(v) + ("," + body)) == Some(Parsed([v] + items, rest))
    decreases v, 3
  {
    ReadBack(v, "," + body);
    ReadsNextItem(Print(v) + ("," + body), v, "," + body, body);
  }

  lemma {:induction false} ItemsText(items: seq<Value>, rest: string)
    requires items != []
    ensures PrintItems(items) + ("]" + rest) ==
      Print(items[0]) + (if |items| == 1 then "]" + rest else "," + (PrintItems(items[1..]) + ("]" + rest)))
  {}

  lemma {:induction false} ReadBackItems(items: seq<Value>, rest: string)
    requires items != []
    ensures ReadItems(PrintItems(items) + ("]" + rest)) == Some(Parsed(items, rest))
    decreases items, 1
  {
    ItemsText(items, rest);
    if |items| == 1 {
      ReadBackLastItem(items[0], rest);
      assert items == [items[0]];
    } else {
      ReadBackItems(items[1..], rest);
      ReadBackNextItem(items[0], items[1..], PrintItems(items[1..]) + ("]" + rest), rest);
      assert items == [items[0]] + items[1..];
    }
  }

  lemma ReadsName(body: string, name: string, after: string, rest: string)
    requires StringBody(body) == Some(Parsed(name, after)) && Skip(after) == ":" + rest
    ensures ReadName("\"" + body) == Some(Parsed(name, rest))
  {
    assert Skip("\"" + body) == "\"" + body && ("\"" + body)[1..] == body;
    assert (":" + rest)[1..] == rest;
  }

  lemma {:induction false} NameRoundTrip(name: string, rest: string)
    ensures ReadName(PrintString(name) + ":" + rest) == Some(Parsed(name, rest))
  {
    var body := Escape(name) + "\"" + (":" + rest);
    StringRoundTrip(name, ":" + rest);
    ReadsName(body, name, ":" + rest, rest);
    Quoted(Escape(name), ":" + rest);
    Assoc(PrintString(name), ":", rest);
  }

  lemma ReadsField(s: string, name: string, mid: string, v: Value, after: string)
    requires ReadName(s) == Some(Parsed(name, mid)) && Read(mid) == Some(Parsed(v, after))
    ensures ReadField(s) == Some(Parsed(Field(name, v), after))
  {}

  lemma ReadBackField(f: Field, rest: string)
    requires EndsNumber(rest)
    ensures ReadField(PrintField(f) + rest) == Some(Parsed(f, rest))
    decreases f, 2
  {
    var mid := Print(f.value) + rest;
    NameRoundTrip(f.name, mid);
    ReadBack(f.value, rest);
    Assoc(PrintString(f.name) + ":", Print(f.value), rest);
    ReadsField(PrintField(f) + rest, f.name, mid, f.value, rest);
  }

  lemma ReadBackLastField(f: Field, rest: string)
    ensures ReadFields(PrintField(f) + ("}" + rest)) == Some(Parsed([f], rest))
    decreases f, 3
  {
    ReadBackField(f, "}" + rest);
    ReadsLastField(PrintField(f) + ("}" + rest), f, "}" + rest, rest);
  }

  lemma ReadBackNextField(f: Field, fields: seq<Field>, body: string, rest: string)
    requires ReadFields(body) == Some(Parsed(fields, rest))
    ensures ReadFields(PrintField(f) + ("," + body)) == Some(Parsed([f] + fields, rest))
    decreases f, 3
  {
    ReadBackField(f, "," + body);
    ReadsNextField(PrintField(f) + ("," + body), f, "," + body, body);
  }

  lemma {:induction false} FieldsUnfold(fields: seq<Field>)
    requires fields != []
    ensures PrintFields(fields) == PrintField(fields[0]) + (if |fields| == 1 then "" else "," + PrintFields(fields[1..]))
  {}

  lemma {:induction false} FieldsText(fields: seq<Field>, rest: string)
    requires fields != []
    ensures PrintFields(fields) + ("}" + rest) ==
      PrintField(fields[0]) + (if |fields| == 1 then "}" + rest else "," + (PrintFields(fields[1..]) + ("}" + rest)))
  {
    FieldsUnfold(fields);
    var first, others := PrintField(fields[0]), PrintFields(fields[1..]);
    if |fields| > 1 {
      Assoc(first, "," + others, "}" + rest);
      Assoc(",", others, "}" + rest);
    }
  }

  lemma Assoc(a: string, b: string, c: string)
    ensures (a + b) + c == a + (b + c)
  {}

  lemma {:induction false} ReadBackFields(fields: seq<Field>, rest: string)
    requires fields != []
    ensures ReadFields(PrintFields(fields) + ("}" + rest)) == Some(Parsed(fields, rest))
    decreases fields, 1
  {
    FieldsText(fields, rest);
    if |fields| == 1 {
      ReadBackLastField(fields[0], rest);
      assert fields == [fields[0]];
    } else {
      ReadBackFields(fields[1..], rest);
      ReadBackNextField(fields[0], fields[1..], PrintFields(fields[1..]) + ("}" + rest), rest);
      assert fields == [fields[0]] + fields[1..];
    }
  }

  /** Every value, written and parsed as a whole text, comes back. */
  lemma ParsePrint(v: Value)
    ensures Parse(Print(v)) == Some(v)
  {
    ReadBack(v, "");
    assert Print(v) + "" == Print(v);
  }

  // ----- written values stay on one line -----

  predicate OneLine(s: string) { forall i :: 0 <= i < |s| ==> s[i] != '\n' && s[i] != '\r' }

  lemma {:induction false} EscapeOneLine(s: string)
    ensures OneLine(Escape(s))
  {
    if s != "" { EscapeOneLine(s[1..]); }
  }

  lemma {:induction false} NatOneLine(n: nat)
    ensures OneLine(PrintNat(n))
  {
    if n >= 10 { NatOneLine(n / 10); }
  }

  lemma {:induction false} PrintOneLine(v: Value)
    ensures OneLine(Print(v))
    decreases v
  {
    match v
    case Num(n) => NatOneLine(if n < 0 then -n else n);
    case Str(s) => EscapeOneLine(s);
    case Arr(items) => ItemsOneLine(items);
    case Obj(fields) => FieldsOneLine(fields);
    case _ =>
  }

  lemma {:induction false} ItemsOneLine(items: seq<Value>)
    ensures OneLine(PrintItems(items))
    decreases items
  {
    if items != [] {
      PrintOneLine(items[0]);
      if |items| > 1 { ItemsOneLine(items[1..]); }
    }
  }

  lemma {:induction false} FieldsOneLine(fields: seq<Field>)
    ensures OneLine(PrintFields(fields))
    decreases fields
  {
    if fields != [] {
      EscapeOneLine(fields[0].name);
      PrintOneLine(fields[0].value);
      if |fields| > 1 { FieldsOneLine(fields[1..]); }
    }
  }

  // ----- a cut object does not parse -----

  lemma {:induction false} SkipExtends(s: string, more: string)
    requires Skip(s) != ""
    ensures Skip(s + more) == Skip(s) + more
  {
    if s != "" && Space(s[0]) {
      assert (s + more)[1..] == s[1..] + more;
      SkipExtends(s[1..], more);
    }
  }

  lemma CharExtends(s: string, more: string)
    requires StringChar(s).Some?
    ensures StringChar(s + more) == Some(Parsed(StringChar(s).value.value, StringChar(s).value.rest + more))
  {
    var r := StringChar(s).value.rest;
    assert (s + more)[|s| - |r|..] == r + more;
  }

  lemma {:induction false} BodyExtends(s: string, more: string)
    requires StringBody(s).Some?
    ensures StringBody(s + more) == Some(Parsed(StringBody(s).value.value, StringBody(s).value.rest + more))
  {
    if s != "" && s[0] == '\"' {
      assert (s + more)[1..] == s[1..] + more;
    } else {
      CharExtends(s, more);
      BodyExtends(StringChar(s).value.rest, more);
    }
  }

  lemma NaturalExtends(s: string, more: string)
    requires Natural(s).Some? && Natural(s).value.rest != ""
    ensures Natural(s + more) == Some(Parsed(Natural(s).value.value, Natural(s).value.rest + more))
  {
    var d := DigitsOf(s);
    assert s + more == d + (s[|d|..] + more);
    DigitsThen(d, s[|d|..] + more);
    assert (s + more)[|d|..] == s[|d|..] + more;
  }

  lemma {:induction false} NameParts(s: string) returns (body: string, name: string, after: string, rest: string)
    requires ReadName(s).Some?
    ensures Skip(s) == "\"" + body && StringBody(body) == Some(Parsed(name, after)) && Skip(after) == ":" + rest
    ensures ReadName(s) == Some(Parsed(name, rest))
  {
    var t := Skip(s);
    body := t[1..];
    name, after := StringBody(body).value.value, StringBody(body).value.rest;
    rest := Skip(after)[1..];
  }

  lemma {:induction false} NameFrom(s: string, body: string, name: string, after: string, rest: string)
    requires Skip(s) == "\"" + body && StringBody(body) == Some(Parsed(name, after)) && Skip(after) == ":" + rest
    ensures ReadName(s) == Some(Parsed(name, rest))
  {
    assert ("\"" + body)[1..] == body && (":" + rest)[1..] == rest;
  }

  lemma {:induction false} NameExtends(s: string, more: string)
    requires ReadName(s).Some?
    ensures ReadName(s + more) == Some(Parsed(ReadName(s).value.value, ReadName(s).value.rest + more))
  {
    var body, name, after, rest := NameParts(s);
    SkipExtends(s, more);
    BodyExtends(body, more);
    SkipExtends(after, more);
    Assoc("\"", body, more);
    Assoc(":", rest, more);
    NameFrom(s + more, body + more, name, after + more, rest + more);
  }

  lemma WordExtends(t: string, word: string, more: string)
    requires word <= t
    ensures word <= t + more && (t + more)[|word|..] == t[|word|..] + more
  {}

  lemma {:induction false} StringExtends(s: string, t: string, v: Value, rest: string, more: string)
    requires Skip(s) == t && Skip(s + more) == t + more && t != "" && t[0] == '\"' && Read(s) == Some(Parsed(v, rest))
    ensures Read(s + more) == Some(Parsed(v, rest + more))
  {
    assert (t + more)[1..] == t[1..] + more;
    BodyExtends(t[1..], more);
  }

  lemma {:induction false} NumberExtends(s: string, t: string, v: Value, rest: string, more: string)
    requires Skip(s) == t && Skip(s + more) == t + more && t != "" && (t[0] == '-' || Digit(t[0]))
    requires Read(s) == Some(Parsed(v, rest)) && rest != ""
    ensures Read(s + more) == Some(Parsed(v, rest + more))
  {
    assert (t + more)[1..] == t[1..] + more;
    if t[0] == '-' { NaturalExtends(t[1..], more); } else { NaturalExtends(t, more); }
  }

  predicate StartsWord(t: string) {
    t != "" && t[0] != '\"' && t[0] != '[' && t[0] != '{' && t[0] != '-' && !Digit(t[0])
  }

  lemma {:induction false} WordReadExtends(s: string, t: string, v: Value, rest: string, more: string)
    requires Skip(s) == t && Skip(s + more) == t + more && StartsWord(t) && Read(s) == Some(Parsed(v, rest))
    ensures Read(s + more) == Some(Parsed(v, rest + more))
  {
    WordExtends(t, if t[0] == 'n' then "null" else if t[0] == 't' then "true" else "false", more);
  }

  /** A successful read that is not a number at the very end of the text is not changed by more text. */
  lemma {:induction false} ReadExtends(s: string, v: Value, rest: string, more: string)
    requires Read(s) == Some(Parsed(v, rest)) && (rest != "" || !v.Num?)
    ensures Read(s + more) == Some(Parsed(v, rest + more))
    decreases |s|, 1
  {
    var t := Skip(s);
    SkipExtends(s, more);
    if t[0] == '\"' {
      StringExtends(s, t, v, rest, more);
    } else if t[0] == '[' {
      HeadThen(t, "[", more);
      ArrayExtends(s, t[1..], v, rest, more);
    } else if t[0] == '{' {
      HeadThen(t, "{", more);
      ObjectExtends(s, t[1..], v, rest, more);
    } else if t[0] == '-' || Digit(t[0]) {
      NumberExtends(s, t, v, rest, more);
    } else {
      WordReadExtends(s, t, v, rest, more);
    }
  }

  lemma HeadThen(t: string, head: string, more: string)
    requires t != "" && head == [t[0]]
    ensures t == head + t[1..] && t + more == head + (t[1..] + more)
  {}

  lemma {:induction false} ArrayExtends(s: string, body: string, v: Value, rest: string, more: string)
    requires Skip(s) == "[" + body && Skip(s + more) == "[" + (body + more) && Read(s) == Some(Parsed(v, rest))
    ensures Read(s + more) == Some(Parsed(v, rest + more))
    decreases |s|, 0
  {
    assert ("[" + body)[1..] == body && ("[" + (body + more))[1..] == body + more;
    var u := Skip(body);
    if u != "" && u[0] == ']' {
      SkipExtends(body, more);
      assert (u + more)[1..] == u[1..] + more;
    } else {
      ItemsExtend(body, v.items, rest, more);
      SkipExtends(body, more);
    }
  }

  lemma {:induction false} ObjectExtends(s: string, body: string, v: Value, rest: string, more: string)
    requires Skip(s) == "{" + body && Skip(s + more) == "{" + (body + more) && Read(s) == Some(Parsed(v, rest))
    ensures Read(s + more) == Some(Parsed(v, rest + more))
    decreases |s|, 0
  {
    assert ("{" + body)[1..] == body && ("{" + (body + more))[1..] == body + more;
    var u := Skip(body);
    if u != "" && u[0] == '}' {
      SkipExtends(body, more);
      assert (u + more)[1..] == u[1..] + more;
    } else {
      FieldsExtend(body, v.fields, rest, more);
      SkipExtends(body, more);
    }
  }

  /** After the first item comes the closing bracket or a comma and more items. */
  lemma AfterItem(s: string, items: seq<Value>, rest: string)
    returns (v: Value, after: string, last: bool, body: string)
    requires ReadItems(s) == Some(Parsed(items, rest))
    ensures Read(s) == Some(Parsed(v, after)) && Skip(after) == (if last then "]" else ",") + body
    ensures |items| >= 1 && items[0] == v
    ensures last ==> items == [v] && rest == body
    ensures !last ==> ReadItems(body) == Some(Parsed(items[1..], rest))
  {
    v, after := Read(s).value.value, Read(s).value.rest;
    var t := Skip(after);
    last, body := t[0] == ']', t[1..];
  }

  lemma {:induction false} ItemsExtend(s: string, items: seq<Value>, rest: string, more: string)
    requires ReadItems(s) == Some(Parsed(items, rest))
    ensures ReadItems(s + more) == Some(Parsed(items, rest + more))
    ensures Skip(s) != ""
    decreases |s|, 2
  {
    var v, after, last, body := AfterItem(s, items, rest);
    ReadExtends(s, v, after, more);
    SkipExtends(after, more);
    if last {
      Assoc("]", body, more);
      ReadsLastItem(s + more, v, after + more, body + more);
    } else {
      Assoc(",", body, more);
      ItemsExtend(body, items[1..], rest, more);
      ReadsNextItem(s + more, v, after + more, body + more);
      assert items == [v] + items[1..];
    }
  }

  lemma FieldExtends(s: string, f: Field, rest: string, more: string)
    requires ReadField(s) == Some(Parsed(f, rest)) && rest != ""
    ensures ReadField(s + more) == Some(Parsed(f, rest + more))
    ensures Skip(s) != ""
    decreases |s|, 2
  {
    var mid := ReadName(s).value.rest;
    NameExtends(s, more);
    ReadExtends(mid, f.value, rest, more);
    ReadsField(s + more, f.name, mid + more, f.value, rest + more);
  }

  /** After the first field comes the closing brace or a comma and more fields. */
  lemma AfterField(s: string, fields: seq<Field>, rest: string)
    returns (f: Field, after: string, last: bool, body: string)
    requires ReadFields(s) == Some(Parsed(fields, rest))
    ensures ReadField(s) == Some(Parsed(f, after)) && Skip(after) == (if last then "}" else ",") + body
    ensures |fields| >= 1 && fields[0] == f
    ensures last ==> fields == [f] && rest == body
    ensures !last ==> ReadFields(body) == Some(Parsed(fields[1..], rest))
  {
    f, after := ReadField(s).value.value, ReadField(s).value.rest;
    var t := Skip(after);
    last, body := t[0] == '}', t[1..];
  }

  lemma {:induction false} FieldsExtend(s: string, fields: seq<Field>, rest: string, more: string)
    requires ReadFields(s) == Some(Parsed(fields, rest))
    ensures ReadFields(s + more) == Some(Parsed(fields, rest + more))
    ensures Skip(s) != ""
    decreases |s|, 3
  {
    var f, after, last, body := AfterField(s, fields, rest);
    FieldExtends(s, f, after, more);
    SkipExtends(after, more);
    if last {
      Assoc("}", body, more);
      ReadsLastField(s + more, f, after + more, body + more);
    } else {
      Assoc(",", body, more);
      FieldsExtend(body, fields[1..], rest, more);
      ReadsNextField(s + more, f, after + more, body + more);
      assert fields == [f] + fields[1..];
    }
  }

  /** No proper prefix of a written object is itself a JSON text. */
  lemma CutObjectDoesNotParse(fields: seq<Field>, n: nat)
    requires n < |Print(Obj(fields))|
    ensures Parse(Print(Obj(fields))[..n]).None?
  {
    var whole := Print(Obj(fields));
    var cut, more := whole[..n], whole[n..];
    ReadBack(Obj(fields), "");
    assert whole + "" == whole && cut + more == whole;
    if n > 0 && Parse(cut).Some? {
      assert cut[0] == '{';
      ReadExtends(cut, Read(cut).value.value, Read(cut).value.rest, more);
    }
  }
}
