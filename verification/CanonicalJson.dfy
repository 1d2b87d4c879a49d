/** Canonical JSON of src/app/e2ee.py, and the inverse parser that shows it is unambiguous.
    Texts are sequences of Unicode characters; UTF-8 is one-to-one on those. */
module CanonicalJson {
  import opened Prelude

  /** A canonical value.  A dict is kept as its fields in key order, which is the order
      `sort_keys=True` prints them in. */
  datatype Json =
    | Null
    | Bool(b: bool)
    | Int(n: int)
    | Str(s: string)
    | Arr(items: Items)
    | Obj(fields: Fields)

  datatype Items = NoItems | Item(head: Json, tail: Items)

  datatype Fields = NoFields | Field(key: string, value: Json, rest: Fields)

  // ---------------------------------------------------------------- printing

  function Digit(d: int): char
    requires 0 <= d < 10
  {
    '0' + d as char
  }

  predicate IsDigit(c: char) { '0' <= c <= '9' }

  function DigitsOf(n: nat): (s: string)
    ensures |s| > 0 && forall i :: 0 <= i < |s| ==> IsDigit(s[i])
  {
    if n < 10 then [Digit(n)] else DigitsOf(n / 10) + [Digit(n % 10)]
  }

  function PrintInt(n: int): string { if n < 0 then "-" + DigitsOf(-n) else DigitsOf(n) }

  function HexDigit(d: int): char
    requires 0 <= d < 16
  {
    if d < 10 then '0' + d as char else 'a' + (d - 10) as char
  }

  /** json.dumps with ensure_ascii=False. */
  function EscapeChar(c: char): string {
    if c == '"' then "\\\""
    else if c == '\\' then "\\\\"
    else if c == '\n' then "\\n"
    else if c == '\r' then "\\r"
    else if c == '\t' then "\\t"
    else if c as int == 8 then "\\b"
    else if c as int == 12 then "\\f"
    else if c as int < 32 then "\\u00" + [HexDigit(c as int / 16), HexDigit(c as int % 16)]
    else [c]
  }

  function Escape(s: string): string {
    if |s| == 0 then "" else EscapeChar(s[0]) + Escape(s[1..])
  }

  function PrintString(s: string): string { "\"" + Escape(s) + "\"" }

  function Print(v: Json): string {
    match v
    case Null => "null"
    case Bool(b) => if b then "true" else "false"
    case Int(n) => PrintInt(n)
    case Str(s) => PrintString(s)
    case Arr(items) => "[" + PrintItems(items)
    case Obj(fields) => "{" + PrintFields(fields)
  }

  /** The elements, their separators and the closing bracket. */
  function PrintItems(items: Items): string {
    match items
    case NoItems => "]"
    case Item(head, NoItems) => Print(head) + "]"
    case Item(head, tail) => Print(head) + "," + PrintItems(tail)
  }

  function PrintFields(fields: Fields): string {
    match fields
    case NoFields => "}"
    case Field(key, value, NoFields) => PrintString(key) + ":" + Print(value) + "}"
    case Field(key, value, rest) => PrintString(key) + ":" + Print(value) + "," + PrintFields(rest)
  }

  // ---------------------------------------------------------------- parsing

  datatype Parsed<+T> = Failed | Parsed(value: T, rest: string)

  function HexValue(c: char): Option<int> {
    if '0' <= c <= '9' then Some(c as int - '0' as int)
    else if 'a' <= c <= 'f' then Some(c as int - 'a' as int + 10)
    else None
  }

  /** One possibly escaped character. */
  function ParseChar(s: string): (r: Parsed<char>)
    ensures r.Parsed? ==> |r.rest| < |s|
  {
    if |s| == 0 || s[0] == '"' then Failed
    else if s[0] != '\\' then Parsed(s[0], s[1..])
    else if |s| < 2 then Failed
    else if s[1] == '"' then Parsed('"', s[2..])
    else if s[1] == '\\' then Parsed('\\', s[2..])
    else if s[1] == 'n' then Parsed('\n', s[2..])
    else if s[1] == 'r' then Parsed('\r', s[2..])
    else if s[1] == 't' then Parsed('\t', s[2..])
    else if s[1] == 'b' then Parsed(8 as char, s[2..])
    else if s[1] == 'f' then Parsed(12 as char, s[2..])
    else if |s| < 6 || s[1..4] != "u00" || HexValue(s[4]).None? || HexValue(s[5]).None? then Failed
    else Parsed((HexValue(s[4]).value * 16 + HexValue(s[5]).value) as char, s[6..])
  }

  /** Characters up to and including the closing quote. */
  function ParseChars(s: string): (r: Parsed<string>)
    ensures r.Parsed? ==> |r.rest| < |s|
    decreases |s|
  {
    if |s| > 0 && s[0] == '"' then Parsed("", s[1..])
    else
      var c := ParseChar(s);
      if c.Failed? then Failed
      else
        var r := ParseChars(c.rest);
        if r.Failed? then Failed else Parsed([c.value] + r.value, r.rest)
  }

  function ParseString(s: string): (r: Parsed<string>)
    ensures r.Parsed? ==> |r.rest| < |s|
  {
    if |s| == 0 || s[0] != '"' then Failed else ParseChars(s[1..])
  }

  /** All leading digits, folded into a number. */
  function ParseDigits(s: string, sofar: nat): (r: (nat, string))
    ensures |r.1| <= |s|
    decreases |s|
  {
    if |s| > 0 && IsDigit(s[0]) then ParseDigits(s[1..], sofar * 10 + (s[0] as int - '0' as int)) else (sofar, s)
  }

  function ParseInt(s: string): (r: Parsed<int>)
    ensures r.Parsed? ==> |r.rest| < |s|
  {
    if |s| > 0 && IsDigit(s[0]) then
      var (n, rest) := ParseDigits(s[1..], s[0] as int - '0' as int);
      Parsed(n, rest)
    else if |s| > 1 && s[0] == '-' && IsDigit(s[1]) then
      var (n, rest) := ParseDigits(s[2..], s[1] as int - '0' as int);
      var m: int := 0 - (n as int);
      Parsed(m, rest)
    else Failed
  }

  function ParseValue(s: string): (r: Parsed<Json>)
    ensures r.Parsed? ==> |r.rest| < |s|
    decreases |s|, 1
  {
    if |s| == 0 then Failed
    else if "null" <= s then Parsed(Null, s[4..])
    else if "true" <= s then Parsed(Bool(true), s[4..])
    else if "false" <= s then Parsed(Bool(false), s[5..])
    else if s[0] == '"' then
      var r := ParseString(s);
      if r.Failed? then Failed else Parsed(Str(r.value), r.rest)
    else if s[0] == '[' then
      var r := ParseItems(s[1..]);
      if r.Failed? then Failed else Parsed(Arr(r.value), r.rest)
    else if s[0] == '{' then
      var r := ParseFields(s[1..]);
      if r.Failed? then Failed else Parsed(Obj(r.value), r.rest)
    else
      var r := ParseInt(s);
      if r.Failed? then Failed else Parsed(Int(r.value), r.rest)
  }

  function ParseItems(s: string): (r: Parsed<Items>)
    ensures r.Parsed? ==> |r.rest| < |s|
    decreases |s|, 2
  {
    if |s| > 0 && s[0] == ']' then Parsed(NoItems, s[1..])
    else
      var v := ParseValue(s);
      if v.Failed? || |v.rest| == 0 then Failed
      else if v.rest[0] == ']' then Parsed(Item(v.value, NoItems), v.rest[1..])
      else if v.rest[0] != ',' then Failed
      else
        var t := ParseItems(v.rest[1..]);
        if t.Failed? then Failed else Parsed(Item(v.value, t.value), t.rest)
  }

  function ParseFields(s: string): (r: Parsed<Fields>)
    ensures r.Parsed? ==> |r.rest| < |s|
    decreases |s|, 2
  {
    if |s| > 0 && s[0] == '}' then Parsed(NoFields, s[1..])
    else
      var k := ParseString(s);
      if k.Failed? || |k.rest| == 0 || k.rest[0] != ':' then Failed
      else
        var v := ParseValue(k.rest[1..]);
        if v.Failed? || |v.rest| == 0 then Failed
        else if v.rest[0] == '}' then Parsed(Field(k.value, v.value, NoFields), v.rest[1..])
        else if v.rest[0] != ',' then Failed
        else
          var t := ParseFields(v.rest[1..]);
          if t.Failed? then Failed else Parsed(Field(k.value, v.value, t.value), t.rest)
  }

  // ---------------------------------------------------------------- round trip

  lemma CharRoundTrip(c: char, rest: string)
    ensures ParseChar(EscapeChar(c) + rest) == Parsed(c, rest)
    ensures |EscapeChar(c)| > 0 && (EscapeChar(c) + rest)[0] != '"'
  {
    var e := EscapeChar(c);
    var s := e + rest;
    assert s[|e|..] == rest;
    if |e| == 6 {
      assert s[1..4] == e[1..4] == "u00";
      assert s[4] == HexDigit(c as int / 16) && s[5] == HexDigit(c as int % 16);
    }
  }

  lemma {:induction false} CharsRoundTrip(t: string, rest: string)
    ensures ParseChars(Escape(t) + "\"" + rest) == Parsed(t, rest)
  {
    if |t| == 0 {
      var s := Escape(t) + "\"" + rest;
      assert s[0] == '"' && s[1..] == rest;
    } else {
      var tail := Escape(t[1..]) + "\"" + rest;
      CharRoundTrip(t[0], tail);
      CharsRoundTrip(t[1..], rest);
      EscapeStep(t, rest);
      CharDispatch(EscapeChar(t[0]) + tail, t[0], tail);
      assert t == [t[0]] + t[1..];
    }
  }

  lemma EscapeStep(t: string, rest: string)
    requires |t| > 0
    ensures Escape(t) + "\"" + rest == EscapeChar(t[0]) + (Escape(t[1..]) + "\"" + rest)
  {
    var head, tail := EscapeChar(t[0]), Escape(t[1..]);
    assert Escape(t) == head + tail;
    Associative(head, tail, "\"");
    Associative(head, tail + "\"", rest);
  }

  lemma CharDispatch(s: string, c: char, tail: string)
    requires |s| > 0 && s[0] != '"' && ParseChar(s) == Parsed(c, tail)
    ensures var r := ParseChars(tail);
      ParseChars(s) == if r.Failed? then Failed else Parsed([c] + r.value, r.rest)
  {
  }

  lemma StringRoundTrip(t: string, rest: string)
    ensures ParseString(PrintString(t) + rest) == Parsed(t, rest)
  {
    CharsRoundTrip(t, rest);
    QuoteDispatch(Escape(t) + "\"" + rest);
    QuotedText(t, rest);
  }

  lemma QuotedText(t: string, rest: string)
    ensures PrintString(t) + rest == ['"'] + (Escape(t) + "\"" + rest)
  {
    Associative("\"", Escape(t), "\"");
    Associative("\"", Escape(t) + "\"", rest);
  }

  lemma QuoteDispatch(body: string)
    ensures ParseString(['"'] + body) == ParseChars(body)
  {
    assert (['"'] + body)[1..] == body;
  }

  /** What may follow a printed value: anything but another digit. */
  predicate Boundary(rest: string) { |rest| > 0 ==> !IsDigit(rest[0]) }

  /** Reading printed digits from scratch gives the number and stops where they end. */
  lemma {:induction false} DigitsRoundTrip(n: nat, more: string)
    ensures ParseDigits(DigitsOf(n) + more, 0) == ParseDigits(more, n)
  {
    if n < 10 {
      var s := [Digit(n)] + more;
      assert s[0] == Digit(n) && s[1..] == more;
    } else {
      var tail := [Digit(n % 10)] + more;
      assert DigitsOf(n) + more == DigitsOf(n / 10) + tail;
      DigitsRoundTrip(n / 10, tail);
      assert tail[0] == Digit(n % 10) && tail[1..] == more;
      assert ParseDigits(tail, n / 10) == ParseDigits(more, n / 10 * 10 + n % 10);
    }
  }

  lemma NatRoundTrip(n: nat, rest: string)
    requires Boundary(rest)
    ensures ParseInt(DigitsOf(n) + rest) == Parsed(n, rest)
  {
    var s := DigitsOf(n) + rest;
    DigitsRoundTrip(n, rest);
    assert IsDigit(s[0]);
    assert ParseDigits(s, 0) == ParseDigits(s[1..], s[0] as int - '0' as int);
  }

  lemma IntRoundTrip(n: int, rest: string)
    requires Boundary(rest)
    ensures ParseInt(PrintInt(n) + rest) == Parsed(n, rest)
  {
    if n >= 0 {
      NatRoundTrip(n, rest);
    } else {
      var t := DigitsOf(-n) + rest;
      var s := PrintInt(n) + rest;
      assert s == "-" + t;
      DigitsRoundTrip(-n, rest);
      assert ParseDigits(t, 0) == ParseDigits(t[1..], t[0] as int - '0' as int);
      assert s[1] == t[0] && s[2..] == t[1..];
    }
  }

  /** The first character tells the kind of a printed value. */
  lemma Heads(v: Json, rest: string)
    ensures |Print(v)| > 0
    ensures v.Null? ==> "null" <= Print(v) + rest
    ensures v.Bool? && v.b ==> "true" <= Print(v) + rest
    ensures v.Bool? && !v.b ==> "false" <= Print(v) + rest
    ensures var c := (Print(v) + rest)[0];
      match v
      case Null => c == 'n'
      case Bool(b) => c == if b then 't' else 'f'
      case Int(_) => c == '-' || IsDigit(c)
      case Str(_) => c == '"'
      case Arr(_) => c == '['
      case Obj(_) => c == '{'
  {
  }

  lemma LiteralRoundTrip(v: Json, rest: string)
    requires v.Null? || v.Bool?
    ensures ParseValue(Print(v) + rest) == Parsed(v, rest)
  {
    Heads(v, rest);
    assert (Print(v) + rest)[|Print(v)|..] == rest;
  }

  lemma NoLiteral(s: string, literal: string)
    requires |s| > 0 && |literal| > 0 && s[0] != literal[0]
    ensures !(literal <= s)
  {
  }

  /** A text that starts like neither literal, bracket nor quote is read as a number. */
  lemma NumberDispatch(s: string)
    requires |s| > 0 && (s[0] == '-' || IsDigit(s[0]))
    ensures ParseValue(s) == (var r := ParseInt(s); if r.Failed? then Failed else Parsed(Int(r.value), r.rest))
  {
    NoLiteral(s, "null");
    NoLiteral(s, "true");
    NoLiteral(s, "false");
  }

  lemma TextDispatch(s: string)
    requires |s| > 0 && s[0] == '"'
    ensures ParseValue(s) == (var r := ParseString(s); if r.Failed? then Failed else Parsed(Str(r.value), r.rest))
  {
  }

  lemma NumberRoundTrip(n: int, rest: string)
    requires Boundary(rest)
    ensures ParseValue(Print(Int(n)) + rest) == Parsed(Int(n), rest)
  {
    Heads(Int(n), rest);
    NumberDispatch(PrintInt(n) + rest);
    IntRoundTrip(n, rest);
  }

  lemma TextRoundTrip(t: string, rest: string)
    ensures ParseValue(Print(Str(t)) + rest) == Parsed(Str(t), rest)
  {
    StringRoundTrip(t, rest);
    TextDispatch(PrintString(t) + rest);
  }

  lemma ArrayDispatch(s: string, items: Items, rest: string)
    requires |s| > 0 && s[0] == '[' && ParseItems(s[1..]) == Parsed(items, rest)
    ensures ParseValue(s) == Parsed(Arr(items), rest)
  {
  }

  lemma ObjectDispatch(s: string, fields: Fields, rest: string)
    requires |s| > 0 && s[0] == '{' && ParseFields(s[1..]) == Parsed(fields, rest)
    ensures ParseValue(s) == Parsed(Obj(fields), rest)
  {
  }

  lemma Unwrapped(open: char, body: string, rest: string)
    ensures var s := [open] + body + rest; |s| > 0 && s[0] == open && s[1..] == body + rest
  {
  }

  /** The parser inverts the printer, whatever follows the value. */
  lemma {:induction false} ValueRoundTrip(v: Json, rest: string)
    requires Boundary(rest)
    ensures ParseValue(Print(v) + rest) == Parsed(v, rest)
    decreases v, 1
  {
    match v
    case Null => LiteralRoundTrip(v, rest);
    case Bool(_) => LiteralRoundTrip(v, rest);
    case Int(n) => NumberRoundTrip(n, rest);
    case Str(t) => TextRoundTrip(t, rest);
    case Arr(items) =>
      Unwrapped('[', PrintItems(items), rest);
      ItemsRoundTrip(items, rest);
      ArrayDispatch(Print(v) + rest, items, rest);
    case Obj(fields) =>
      Unwrapped('{', PrintFields(fields), rest);
      FieldsRoundTrip(fields, rest);
      ObjectDispatch(Print(v) + rest, fields, rest);
  }

  /** How a printed element and what follows it are read. */
  lemma ItemDispatch(s: string, head: Json, tail: Items, after: string, rest: string)
    requires |s| > 0 && s[0] != ']' && ParseValue(s) == Parsed(head, after) && |after| > 0
    requires if tail.NoItems? then after[0] == ']' && after[1..] == rest
             else after[0] == ',' && ParseItems(after[1..]) == Parsed(tail, rest)
    ensures ParseItems(s) == Parsed(Item(head, tail), rest)
  {
  }

  function AfterItem(tail: Items, rest: string): string {
    if tail.NoItems? then [']'] + rest else [','] + (PrintItems(tail) + rest)
  }

  lemma ItemText(head: Json, tail: Items, rest: string)
    ensures PrintItems(Item(head, tail)) + rest == Print(head) + AfterItem(tail, rest)
  {
  }

  lemma {:induction false} ItemsRoundTrip(items: Items, rest: string)
    ensures ParseItems(PrintItems(items) + rest) == Parsed(items, rest)
    decreases items, 0
  {
    match items
    case NoItems =>
      assert (PrintItems(items) + rest)[1..] == rest;
    case Item(head, tail) =>
      var after := AfterItem(tail, rest);
      ItemText(head, tail, rest);
      Heads(head, after);
      ValueRoundTrip(head, after);
      assert after[1..] == if tail.NoItems? then rest else PrintItems(tail) + rest;
      if !tail.NoItems? { ItemsRoundTrip(tail, rest); }
      ItemDispatch(Print(head) + after, head, tail, after, rest);
  }

  /** How a printed member and what follows it are read. */
  lemma FieldDispatch(s: string, key: string, value: Json, tail: Fields, colon: string, after: string, rest: string)
    requires |s| > 0 && s[0] == '"' && ParseString(s) == Parsed(key, colon)
    requires |colon| > 0 && colon[0] == ':' && ParseValue(colon[1..]) == Parsed(value, after)
    requires |after| > 0
    requires if tail.NoFields? then after[0] == '}' && after[1..] == rest
             else after[0] == ',' && ParseFields(after[1..]) == Parsed(tail, rest)
    ensures ParseFields(s) == Parsed(Field(key, value, tail), rest)
  {
  }

  function AfterField(tail: Fields, rest: string): string {
    if tail.NoFields? then ['}'] + rest else [','] + (PrintFields(tail) + rest)
  }

  lemma FieldText(key: string, value: Json, tail: Fields, rest: string)
    ensures PrintFields(Field(key, value, tail)) + rest
         == PrintString(key) + ([':'] + (Print(value) + AfterField(tail, rest)))
  {
  }

  lemma {:induction false} FieldsRoundTrip(fields: Fields, rest: string)
    ensures ParseFields(PrintFields(fields) + rest) == Parsed(fields, rest)
    decreases fields, 0
  {
    match fields
    case NoFields =>
      assert (PrintFields(fields) + rest)[1..] == rest;
    case Field(key, value, tail) =>
      var after := AfterField(tail, rest);
      var colon := [':'] + (Print(value) + after);
      var s := PrintString(key) + colon;
      FieldText(key, value, tail, rest);
      StringRoundTrip(key, colon);
      assert colon[1..] == Print(value) + after;
      ValueRoundTrip(value, after);
      assert after[1..] == if tail.NoFields? then rest else PrintFields(tail) + rest;
      if !tail.NoFields? { FieldsRoundTrip(tail, rest); }
      FieldDispatch(s, key, value, tail, colon, after, rest);
  }

  /** Equal texts come from equal values. */
  lemma PrintIsInjective(a: Json, b: Json)
    requires Print(a) == Print(b)
    ensures a == b
  {
    ValueRoundTrip(a, "");
    ValueRoundTrip(b, "");
    assert Print(a) + "" == Print(b) + "";
  }
}
