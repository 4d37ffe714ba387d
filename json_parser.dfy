/**
 * `JSON.parse` for the value model of module Json, and the round trip
 * `Parse(Stringify(j)) == Some(j)`.
 */
module JsonParser {
  import opened Base
  import opened Text
  import opened Json

  /** The white space JSON allows between tokens. */
  predicate IsJsonWs(c: char) {
    c == ' ' || c == '\t' || c == '\n' || c == '\r'
  }

  function SkipWs(s: string): (r: string)
    ensures |r| <= |s| && r == s[|s| - |r|..]
    ensures r == [] || !IsJsonWs(r[0])
  {
    if |s| > 0 && IsJsonWs(s[0]) then SkipWs(s[1..]) else s
  }

  function HexValue(c: char): Option<nat> {
    if '0' <= c <= '9' then Some(c as int - '0' as int)
    else if 'a' <= c <= 'f' then Some(c as int - 'a' as int + 10)
    else if 'A' <= c <= 'F' then Some(c as int - 'A' as int + 10)
    else None
  }

  /** The value of four hexadecimal digits at the start of `s`. */
  function Hex4(s: string): (r: Option<nat>)
    ensures r.Some? ==> r.value < 0x10000
  {
    if |s| < 4 then None
    else match (HexValue(s[0]), HexValue(s[1]), HexValue(s[2]), HexValue(s[3]))
      case (Some(a), Some(b), Some(c), Some(d)) =>
        if a < 16 && b < 16 && c < 16 && d < 16 then Some(((a * 16 + b) * 16 + c) * 16 + d) else None
      case _ => None
  }

  /** The character of an escape sequence; `s` follows the backslash. */
  function ParseEscape(s: string): (r: Option<(char, string)>)
    ensures r.Some? ==> |r.value.1| < |s|
  {
    if |s| == 0 then None
    else if s[0] == '"' then Some(('"', s[1..]))
    else if s[0] == '\\' then Some(('\\', s[1..]))
    else if s[0] == '/' then Some(('/', s[1..]))
    else if s[0] == 'b' then Some(('\U{0008}', s[1..]))
    else if s[0] == 'f' then Some(('\U{000C}', s[1..]))
    else if s[0] == 'n' then Some(('\n', s[1..]))
    else if s[0] == 'r' then Some(('\r', s[1..]))
    else if s[0] == 't' then Some(('\t', s[1..]))
    else if s[0] == 'u' then
      match Hex4(s[1..])
      case None => None
      case Some(h) =>
        if h < 0xD800 || 0xE000 <= h then Some((h as char, s[5..]))
        else if h < 0xDC00 && |s| >= 11 && s[5] == '\\' && s[6] == 'u' then
          match Hex4(s[7..])
          case Some(l) =>
            if 0xDC00 <= l < 0xE000 then Some(((0x10000 + (h - 0xD800) * 0x400 + (l - 0xDC00)) as char, s[11..]))
            else None
          case None => None
        else None
    else None
  }

  /** The body of a string literal; `s` follows the opening quote. */
  function ParseString(s: string): (r: Option<(string, string)>)
    ensures r.Some? ==> |r.value.1| < |s|
    decreases |s|
  {
    if |s| == 0 then None
    else if s[0] == '"' then Some(("", s[1..]))
    else if s[0] < ' ' then None
    else if s[0] == '\\' then
      match ParseEscape(s[1..])
      case None => None
      case Some((c, rest)) =>
        match ParseString(rest)
        case None => None
        case Some((t, rest')) => Some(([c] + t, rest'))
    else
      match ParseString(s[1..])
      case None => None
      case Some((t, rest')) => Some(([s[0]] + t, rest'))
  }

  /** The length of the run of decimal digits that starts `s`. */
  function DigitRun(s: string): (k: nat)
    ensures k <= |s|
    ensures forall i :: 0 <= i < k ==> IsDigit(s[i])
    ensures k == |s| || !IsDigit(s[k])
  {
    if |s| > 0 && IsDigit(s[0]) then 1 + DigitRun(s[1..]) else 0
  }

  /** An integer literal; fractions and exponents are not part of this model. */
  function ParseNumber(s: string): (r: Option<(Json, string)>)
    ensures r.Some? ==> |r.value.1| < |s|
  {
    var neg := |s| > 0 && s[0] == '-';
    var t := if neg then s[1..] else s;
    if |t| == 0 || !IsDigit(t[0]) then None
    else
      var k := if t[0] == '0' then 1 else DigitRun(t);
      var rest := t[k..];
      if |rest| > 0 && (rest[0] == '.' || rest[0] == 'e' || rest[0] == 'E') then None
      else
        var m: int := DigitsValue(t[..k]);
        Some((JNum(if neg then -m else m), rest))
  }

  function ParseValue(s: string): (r: Option<(Json, string)>)
    ensures r.Some? ==> |r.value.1| < |s|
    decreases |s|, 0
  {
    var t := SkipWs(s);
    if |t| == 0 then None
    else if t[0] == 'n' then (if "null" <= t then Some((JNull, t[4..])) else None)
    else if t[0] == 't' then (if "true" <= t then Some((JBool(true), t[4..])) else None)
    else if t[0] == 'f' then (if "false" <= t then Some((JBool(false), t[5..])) else None)
    else if t[0] == '"' then
      match ParseString(t[1..])
      case None => None
      case Some((str, rest)) => Some((JStr(str), rest))
    else if t[0] == '[' then ParseArray(t[1..])
    else if t[0] == '{' then ParseObject(t[1..])
    else ParseNumber(t)
  }

  /** An array literal; `s` follows the `[`. */
  function ParseArray(s: string): (r: Option<(Json, string)>)
    ensures r.Some? ==> |r.value.1| < |s|
    decreases |s|, 2
  {
    var t := SkipWs(s);
    if |t| > 0 && t[0] == ']' then Some((JArr([]), t[1..])) else ParseElements(t, [])
  }

  function ParseElements(s: string, acc: seq<Json>): (r: Option<(Json, string)>)
    ensures r.Some? ==> |r.value.1| < |s|
    decreases |s|, 1
  {
    match ParseValue(s)
    case None => None
    case Some((v, rest)) =>
      var t := SkipWs(rest);
      if |t| == 0 then None
      else if t[0] == ',' then ParseElements(t[1..], acc + [v])
      else if t[0] == ']' then Some((JArr(acc + [v]), t[1..]))
      else None
  }

  /** An object literal; `s` follows the `{`. */
  function ParseObject(s: string): (r: Option<(Json, string)>)
    ensures r.Some? ==> |r.value.1| < |s|
    decreases |s|, 2
  {
    var t := SkipWs(s);
    if |t| > 0 && t[0] == '}' then Some((JObj([]), t[1..])) else ParseMembers(t, [])
  }

  function ParseMembers(s: string, acc: seq<Field>): (r: Option<(Json, string)>)
    ensures r.Some? ==> |r.value.1| < |s|
    decreases |s|, 1
  {
    var t := SkipWs(s);
    if |t| == 0 || t[0] != '"' then None
    else
      match ParseString(t[1..])
      case None => None
      case Some((key, rest)) =>
        var u := SkipWs(rest);
        if |u| == 0 || u[0] != ':' then None
        else
          match ParseValue(u[1..])
          case None => None
          case Some((v, rest')) =>
            var w := SkipWs(rest');
            if |w| == 0 then None
            else if w[0] == ',' then ParseMembers(w[1..], acc + [Field(key, v)])
            else if w[0] == '}' then Some((JObj(acc + [Field(key, v)]), w[1..]))
            else None
  }

  /** `JSON.parse(s)`: `None` where JavaScript throws a SyntaxError. */
  function Parse(s: string): Option<Json> {
    match ParseValue(s)
    case None => None
    case Some((v, rest)) => if SkipWs(rest) == "" then Some(v) else None
  }

  // ---------------------------------------------------------------- round trip

  /** What may follow a value inside serialised JSON. */
  predicate Delimited(rest: string) {
    rest == "" || rest[0] == ',' || rest[0] == ']' || rest[0] == '}'
  }

  lemma SkipWsNoop(s: string)
    requires s == "" || !IsJsonWs(s[0])
    ensures SkipWs(s) == s
  {
  }

  lemma HexDigitValue(d: nat)
    requires d < 16
    ensures HexValue(HexDigit(d)) == Some(d)
  {
  }

  lemma {:induction false} EscapeCharRoundTrip(c: char, rest: string)
    ensures ParseString(EscapeChar(c) + rest) == match ParseString(rest)
      case None => None
      case Some((t, r)) => Some(([c] + t, r))
  {
    var e := EscapeChar(c);
    if c < ' ' && c != '\U{0008}' && c != '\U{000C}' && c != '\n' && c != '\r' && c != '\t' {
      var hi, lo := c as int / 16, c as int % 16;
      HexDigitValue(hi);
      HexDigitValue(lo);
      var s := e + rest;
      assert s[0] == '\\';
      var esc := s[1..];
      assert esc == "u00" + [HexDigit(hi), HexDigit(lo)] + rest;
      assert esc[1..][..4] == "00" + [HexDigit(hi), HexDigit(lo)];
      assert Hex4(esc[1..]) == Some(c as int);
      assert esc[5..] == rest;
      assert (c as int) as char == c;
    } else if c == '"' || c == '\\' || c == '\U{0008}' || c == '\U{000C}' || c == '\n' || c == '\r' || c == '\t' {
      var s := e + rest;
      assert s[1..][1..] == rest;
    } else {
      assert (e + rest)[1..] == rest;
    }
  }

  lemma {:induction false} StringRoundTrip(str: string, rest: string)
    ensures ParseString(EscapeString(str) + "\"" + rest) == Some((str, rest))
    decreases |str|
  {
    if |str| == 0 {
      assert EscapeString(str) + "\"" + rest == "\"" + rest;
    } else {
      var tail := EscapeString(str[1..]) + "\"" + rest;
      StringRoundTrip(str[1..], rest);
      assert EscapeString(str) + "\"" + rest == EscapeChar(str[0]) + tail;
      EscapeCharRoundTrip(str[0], tail);
      assert [str[0]] + str[1..] == str;
    }
  }

  /** A serialised string literal parses back, with what follows left over. */
  lemma QuoteRoundTrip(str: string, rest: string)
    ensures ParseValue(Quote(str) + rest) == Some((JStr(str), rest))
  {
    var s := Quote(str) + rest;
    assert s[0] == '"';
    SkipWsNoop(s);
    assert s[1..] == EscapeString(str) + "\"" + rest;
    StringRoundTrip(str, rest);
  }

  lemma DigitsLeading(n: nat)
    ensures Digits(n)[0] == '0' ==> n == 0
  {
    if n >= 10 {
      DigitsLeading(n / 10);
    }
  }

  /** The digit run `ParseNumber` reads from a written natural number is that number's digits. */
  lemma DigitsRead(m: nat, rest: string)
    requires Delimited(rest)
    ensures var d := Digits(m); var t := d + rest;
      |t| > 0 && IsDigit(t[0]) && (if t[0] == '0' then 1 else DigitRun(t)) == |d|
      && t[..|d|] == d && t[|d|..] == rest
  {
    var d := Digits(m);
    var t := d + rest;
    DigitsLeading(m);
    assert t[0] == d[0];
    if t[0] != '0' {
      DigitRunPrefix(d, rest);
    }
    assert t[..|d|] == d && t[|d|..] == rest;
  }

  lemma UnsignedRoundTrip(m: nat, rest: string)
    requires Delimited(rest)
    ensures ParseNumber(Digits(m) + rest) == Some((JNum(m), rest))
  {
    var d := Digits(m);
    DigitsRead(m, rest);
    DigitsRoundTrip(m);
    assert (d + rest)[0] != '-';
  }

  lemma NegatedRoundTrip(m: nat, rest: string)
    requires Delimited(rest)
    ensures ParseNumber("-" + (Digits(m) + rest)) == Some((JNum(-(m as int)), rest))
  {
    var t := Digits(m) + rest;
    DigitsRead(m, rest);
    DigitsRoundTrip(m);
    assert ("-" + t)[1..] == t;
  }

  lemma NumberRoundTrip(n: int, rest: string)
    requires Delimited(rest)
    ensures ParseNumber(Decimal(n) + rest) == Some((JNum(n), rest))
  {
    if n < 0 {
      NegativeRoundTrip(n, rest);
    } else {
      UnsignedRoundTrip(n, rest);
    }
  }

  lemma NegativeRoundTrip(n: int, rest: string)
    requires n < 0 && Delimited(rest)
    ensures ParseNumber(Decimal(n) + rest) == Some((JNum(n), rest))
  {
    NegatedRoundTrip(-n, rest);
    assert Decimal(n) + rest == "-" + (Digits(-n) + rest);
  }

  lemma {:induction false} DigitRunPrefix(d: string, rest: string)
    requires forall i :: 0 <= i < |d| ==> IsDigit(d[i])
    requires rest == "" || !IsDigit(rest[0])
    ensures DigitRun(d + rest) == |d|
    decreases |d|
  {
    if |d| > 0 {
      DigitRunPrefix(d[1..], rest);
      assert (d + rest)[1..] == d[1..] + rest;
    } else {
      assert d + rest == rest;
    }
  }

  /** How `ParseValue` dispatches on the first character of text without leading white space. */
  lemma ValueDispatch(s: string)
    requires |s| > 0 && !IsJsonWs(s[0])
    ensures s[0] == '[' ==> ParseValue(s) == ParseArray(s[1..])
    ensures s[0] == '{' ==> ParseValue(s) == ParseObject(s[1..])
    ensures (s[0] == '-' || IsDigit(s[0])) ==> ParseValue(s) == ParseNumber(s)
  {
    SkipWsNoop(s);
  }

  /** The literals `null`, `true` and `false` parse back. */
  lemma LiteralRoundTrip(j: Json, rest: string)
    requires j.JNull? || j.JBool?
    ensures ParseValue(Stringify(j) + rest) == Some((j, rest))
  {
    var lit := Stringify(j);
    var s := lit + rest;
    assert s[0] == lit[0];
    SkipWsNoop(s);
    assert s[..|lit|] == lit && s[|lit|..] == rest;
  }

  /** Every serialised value parses back to itself, leaving what follows it. */
  lemma {:induction false} ValueRoundTrip(j: Json, rest: string)
    requires Delimited(rest)
    ensures ParseValue(Stringify(j) + rest) == Some((j, rest))
    decreases j, 2
  {
    match j
    case JNull => LiteralRoundTrip(j, rest);
    case JBool(_) => LiteralRoundTrip(j, rest);
    case JNum(n) =>
      var s := Decimal(n) + rest;
      DecimalShape(n);
      assert s[0] == Decimal(n)[0];
      ValueDispatch(s);
      NumberRoundTrip(n, rest);
    case JStr(str) => QuoteRoundTrip(str, rest);
    case JArr(items) => ArrayRoundTrip(items, rest);
    case JObj(fields) => ObjectRoundTrip(fields, rest);
  }

  /** One step of `ParseElements` after a value that is followed by `after`. */
  lemma ElementsStep(s: string, acc: seq<Json>, v: Json, after: string)
    requires ParseValue(s) == Some((v, after)) && |after| > 0 && !IsJsonWs(after[0])
    ensures after[0] == ',' ==> ParseElements(s, acc) == ParseElements(after[1..], acc + [v])
    ensures after[0] == ']' ==> ParseElements(s, acc) == Some((JArr(acc + [v]), after[1..]))
  {
    SkipWsNoop(after);
  }

  /** One step of `ParseMembers` over `"key":value` followed by `after`. */
  lemma MembersStep(s: string, acc: seq<Field>, key: string, colon: string, v: Json, after: string)
    requires |s| > 0 && s[0] == '"' && ParseString(s[1..]) == Some((key, colon))
    requires |colon| > 0 && colon[0] == ':' && ParseValue(colon[1..]) == Some((v, after))
    requires |after| > 0 && !IsJsonWs(after[0])
    ensures after[0] == ',' ==> ParseMembers(s, acc) == ParseMembers(after[1..], acc + [Field(key, v)])
    ensures after[0] == '}' ==> ParseMembers(s, acc) == Some((JObj(acc + [Field(key, v)]), after[1..]))
  {
    SkipWsNoop(s);
    SkipWsNoop(colon);
    SkipWsNoop(after);
  }

  /** `[` followed by text without leading white space. */
  lemma ArrayOpen(inner: string)
    requires |inner| > 0 && !IsJsonWs(inner[0])
    ensures ParseValue("[" + inner) ==
      if inner[0] == ']' then Some((JArr([]), inner[1..])) else ParseElements(inner, [])
  {
    var s := "[" + inner;
    assert s[1..] == inner;
    ValueDispatch(s);
    SkipWsNoop(inner);
  }

  /** `{` followed by text without leading white space. */
  lemma ObjectOpen(inner: string)
    requires |inner| > 0 && !IsJsonWs(inner[0])
    ensures ParseValue("{" + inner) ==
      if inner[0] == '}' then Some((JObj([]), inner[1..])) else ParseMembers(inner, [])
  {
    var s := "{" + inner;
    assert s[1..] == inner;
    ValueDispatch(s);
    SkipWsNoop(inner);
  }

  lemma {:induction false} ArrayRoundTrip(items: seq<Json>, rest: string)
    ensures ParseValue(Stringify(JArr(items)) + rest) == Some((JArr(items), rest))
    decreases JArr(items), 1
  {
    var inner := StringifyItems(items) + "]" + rest;
    assert Stringify(JArr(items)) + rest == "[" + inner;
    if |items| == 0 {
      assert inner == "]" + rest;
      ArrayOpen(inner);
      assert inner[1..] == rest;
    } else {
      StringifyShape(items[0]);
      assert StringifyItems(items)[0] == Stringify(items[0])[0];
      assert inner[0] == Stringify(items[0])[0];
      ArrayOpen(inner);
      ItemsRoundTrip(items, [], rest);
      assert [] + items == items;
    }
  }

  /** Serialised fields start with the quote of the first key. */
  lemma FieldsStart(fields: seq<Field>, rest: string)
    requires |fields| > 0
    ensures (StringifyFields(fields) + "}" + rest)[0] == '"'
  {
    var first := StringifyField(fields[0]);
    assert first[0] == '"';
    assert StringifyFields(fields)[0] == '"';
  }

  lemma {:induction false} ObjectRoundTrip(fields: seq<Field>, rest: string)
    ensures ParseValue(Stringify(JObj(fields)) + rest) == Some((JObj(fields), rest))
    decreases JObj(fields), 1
  {
    var inner := StringifyFields(fields) + "}" + rest;
    assert Stringify(JObj(fields)) + rest == "{" + inner;
    if |fields| == 0 {
      assert inner == "}" + rest;
      ObjectOpen(inner);
      assert inner[1..] == rest;
    } else {
      FieldsStart(fields, rest);
      ObjectOpen(inner);
      FieldsRoundTrip(fields, [], rest);
      AppendFirst([], fields);
      assert [] + fields == fields;
    }
  }

  /** The serialised items, split after the first one. */
  lemma ItemsText(items: seq<Json>, rest: string) returns (after: string)
    requires |items| > 0
    ensures StringifyItems(items) + "]" + rest == Stringify(items[0]) + after
    ensures |items| == 1 ==> after == "]" + rest
    ensures |items| > 1 ==> after == "," + (StringifyItems(items[1..]) + "]" + rest)
  {
    after := if |items| == 1 then "]" + rest else "," + (StringifyItems(items[1..]) + "]" + rest);
  }

  /** `ParseElements` consumes the first serialised item and the delimiter after it. */
  lemma ItemsHead(items: seq<Json>, acc: seq<Json>, rest: string)
    requires |items| > 0
    ensures ParseElements(StringifyItems(items) + "]" + rest, acc) ==
      if |items| == 1 then Some((JArr(acc + [items[0]]), rest))
      else ParseElements(StringifyItems(items[1..]) + "]" + rest, acc + [items[0]])
    decreases items, 0
  {
    var after := ItemsText(items, rest);
    ValueRoundTrip(items[0], after);
    ElementsStep(Stringify(items[0]) + after, acc, items[0], after);
    assert after[1..] == if |items| == 1 then rest else StringifyItems(items[1..]) + "]" + rest;
  }

  lemma AppendFirst<T>(acc: seq<T>, xs: seq<T>)
    requires |xs| > 0
    ensures acc + [xs[0]] + xs[1..] == acc + xs
    ensures |xs| == 1 ==> acc + [xs[0]] == acc + xs
  {
    assert [xs[0]] + xs[1..] == xs;
  }

  lemma {:induction false} ItemsRoundTrip(items: seq<Json>, acc: seq<Json>, rest: string)
    requires |items| > 0
    ensures ParseElements(StringifyItems(items) + "]" + rest, acc) == Some((JArr(acc + items), rest))
    decreases items, 1
  {
    ItemsHead(items, acc, rest);
    AppendFirst(acc, items);
    if |items| > 1 {
      ItemsRoundTrip(items[1..], acc + [items[0]], rest);
    }
  }

  /** The serialised fields, split into the first key, the colon and what follows its value. */
  lemma FieldsText(fields: seq<Field>, rest: string) returns (colon: string, after: string)
    requires |fields| > 0
    ensures StringifyFields(fields) + "}" + rest == Quote(fields[0].key) + colon
    ensures colon == ":" + (Stringify(fields[0].value) + after)
    ensures |fields| == 1 ==> after == "}" + rest
    ensures |fields| > 1 ==> after == "," + (StringifyFields(fields[1..]) + "}" + rest)
  {
    after := if |fields| == 1 then "}" + rest else "," + (StringifyFields(fields[1..]) + "}" + rest);
    colon := ":" + (Stringify(fields[0].value) + after);
  }

  /** `ParseMembers` consumes the first serialised field and the delimiter after it. */
  lemma FieldsHead(fields: seq<Field>, acc: seq<Field>, rest: string)
    requires |fields| > 0
    ensures ParseMembers(StringifyFields(fields) + "}" + rest, acc) ==
      if |fields| == 1 then Some((JObj(acc + [fields[0]]), rest))
      else ParseMembers(StringifyFields(fields[1..]) + "}" + rest, acc + [fields[0]])
    decreases fields, 0
  {
    var f := fields[0];
    var colon, after := FieldsText(fields, rest);
    var s := Quote(f.key) + colon;
    assert s[1..] == EscapeString(f.key) + "\"" + colon;
    StringRoundTrip(f.key, colon);
    assert colon[1..] == Stringify(f.value) + after;
    ValueRoundTrip(f.value, after);
    MembersStep(s, acc, f.key, colon, f.value, after);
    assert after[1..] == if |fields| == 1 then rest else StringifyFields(fields[1..]) + "}" + rest;
  }

  lemma {:induction false} FieldsRoundTrip(fields: seq<Field>, acc: seq<Field>, rest: string)
    requires |fields| > 0
    ensures ParseMembers(StringifyFields(fields) + "}" + rest, acc) == Some((JObj(acc + fields), rest))
    decreases fields, 1
  {
    FieldsHead(fields, acc, rest);
    AppendFirst(acc, fields);
    if |fields| > 1 {
      FieldsRoundTrip(fields[1..], acc + [fields[0]], rest);
    }
  }

  /** `JSON.parse(JSON.stringify(j))` gives `j` back. */
  lemma ParseStringify(j: Json)
    ensures Parse(Stringify(j)) == Some(j)
  {
    ValueRoundTrip(j, "");
    assert Stringify(j) + "" == Stringify(j);
  }
}
