/**
 * A JSON value model with `JSON.stringify` and `JSON.parse` as the core uses
 * them, JavaScript truthiness, `String(v)` and property access.
 * Numbers are integers (see README, "Left out").
 */
module Json {
  import opened Base
  import opened Text

  datatype Json =
    | JNull
    | JBool(b: bool)
    | JNum(n: int)
    | JStr(s: string)
    | JArr(items: seq<Json>)
    | JObj(fields: seq<Field>)

  datatype Field = Field(key: string, value: Json)

  // ---------------------------------------------------------------- JavaScript views

  /** JavaScript truthiness; `None` stands for `undefined`. */
  predicate Truthy(v: Option<Json>) {
    match v
    case None => false
    case Some(JNull) => false
    case Some(JBool(b)) => b
    case Some(JNum(n)) => n != 0
    case Some(JStr(s)) => s != ""
    case Some(_) => true
  }

  /** `a || b` on JavaScript values. */
  function Or(a: Option<Json>, b: Option<Json>): (r: Option<Json>)
    ensures Truthy(r) <==> Truthy(a) || Truthy(b)
    ensures Truthy(a) ==> r == a
  {
    if Truthy(a) then a else b
  }

  /** The value of the last field named `key` (the one `JSON.parse` keeps). */
  function Lookup(fields: seq<Field>, key: string): (r: Option<Json>)
    ensures r.Some? <==> exists i :: 0 <= i < |fields| && fields[i].key == key
    ensures r.Some? ==> exists i :: 0 <= i < |fields| && fields[i] == Field(key, r.value)
                                && forall j :: i < j < |fields| ==> fields[j].key != key
  {
    if |fields| == 0 then None
    else if Last(fields).key == key then Some(Last(fields).value)
    else Lookup(fields[..|fields| - 1], key)
  }

  /** `v?.key` for the property names the core reads; primitives have none of them. */
  function Get(v: Option<Json>, key: string): Option<Json> {
    match v
    case Some(JObj(fields)) => Lookup(fields, key)
    case _ => None
  }

  /** `v?.[0]`. */
  function Index0(v: Option<Json>): Option<Json> {
    match v
    case Some(JArr(items)) => if |items| > 0 then Some(items[0]) else None
    case Some(JObj(fields)) => Lookup(fields, "0")
    case Some(JStr(s)) => if |s| > 0 then Some(JStr([s[0]])) else None
    case _ => None
  }

  /** The message of the TypeError that `String(v)` throws for an unconvertible value. */
  const ConvertError := "Cannot convert object to primitive value"

  /** Whether converting `j` to a string throws: an object with its own `toString` property,
      which a parsed value can never make callable (and `valueOf` gives back the object
      itself), or an array holding such a value at any depth, since `join` converts every
      element that is not `null`. */
  predicate Unconvertible(j: Json)
    decreases j
  {
    match j
    case JObj(fields) => Lookup(fields, "toString").Some?
    case JArr(items) => exists i :: 0 <= i < |items| && Unconvertible(items[i])
    case _ => false
  }

  /** `String(v)`, as a template literal converts a value, for a value that is not
      `Unconvertible`. */
  function ToJsString(v: Option<Json>): string {
    match v
    case None => "undefined"
    case Some(j) => ValueString(j)
  }

  function ValueString(j: Json): string
    decreases j, 0
  {
    match j
    case JNull => "null"
    case JBool(b) => if b then "true" else "false"
    case JNum(n) => Decimal(n)
    case JStr(s) => s
    case JArr(items) => ElementStrings(items)
    case JObj(_) => "[object Object]"
  }

  /** `Array.prototype.join(",")`: `null` elements print as the empty string. */
  function ElementStrings(items: seq<Json>): string
    decreases items, 1
  {
    if |items| == 0 then ""
    else
      var head := if items[0] == JNull then "" else ValueString(items[0]);
      if |items| == 1 then head else head + "," + ElementStrings(items[1..])
  }

  // ---------------------------------------------------------------- JSON.stringify

  function HexDigit(d: nat): (c: char)
    requires d < 16
  {
    if d < 10 then ('0' as int + d) as char else ('a' as int + d - 10) as char
  }

  /** The escape `JSON.stringify` writes for one character of a string. */
  function EscapeChar(c: char): (r: string)
    ensures |r| >= 1 && '\n' !in r
  {
    if c == '"' then "\\\""
    else if c == '\\' then "\\\\"
    else if c == '\U{0008}' then "\\b"
    else if c == '\U{000C}' then "\\f"
    else if c == '\n' then "\\n"
    else if c == '\r' then "\\r"
    else if c == '\t' then "\\t"
    else if c < ' ' then "\\u00" + [HexDigit(c as int / 16), HexDigit(c as int % 16)]
    else [c]
  }

  function EscapeString(s: string): (r: string)
    ensures '\n' !in r
  {
    if |s| == 0 then "" else EscapeChar(s[0]) + EscapeString(s[1..])
  }

  function Quote(s: string): (r: string)
    ensures '\n' !in r
  {
    "\"" + EscapeString(s) + "\""
  }

  /** `JSON.stringify(j)`: compact, no white space between tokens. */
  function Stringify(j: Json): (r: string)
    decreases j, 0
  {
    match j
    case JNull => "null"
    case JBool(b) => if b then "true" else "false"
    case JNum(n) => Decimal(n)
    case JStr(s) => Quote(s)
    case JArr(items) => "[" + StringifyItems(items) + "]"
    case JObj(fields) => "{" + StringifyFields(fields) + "}"
  }

  function StringifyItems(items: seq<Json>): string
    decreases items, 1
  {
    if |items| == 0 then ""
    else if |items| == 1 then Stringify(items[0])
    else Stringify(items[0]) + "," + StringifyItems(items[1..])
  }

  function StringifyField(f: Field): string
    decreases f, 1
  {
    Quote(f.key) + ":" + Stringify(f.value)
  }

  function StringifyFields(fields: seq<Field>): string
    decreases fields, 2
  {
    if |fields| == 0 then ""
    else if |fields| == 1 then StringifyField(fields[0])
    else StringifyField(fields[0]) + "," + StringifyFields(fields[1..])
  }

  /** The characters a serialised value can start with. */
  predicate IsValueStart(c: char) {
    c == 'n' || c == 't' || c == 'f' || c == '-' || IsDigit(c) || c == '"' || c == '[' || c == '{'
  }

  /** The characters a serialised value can end with. */
  predicate IsValueEnd(c: char) {
    c == 'l' || c == 'e' || IsDigit(c) || c == '"' || c == ']' || c == '}'
  }

  lemma DecimalShape(n: int)
    ensures IsValueStart(Decimal(n)[0]) && IsDigit(Last(Decimal(n)))
  {
    var d := if n < 0 then Digits(-n) else Digits(n);
    assert IsDigit(d[|d| - 1]);
    if n >= 0 {
      assert IsDigit(d[0]);
    }
  }

  /** Serialised JSON carries no raw line feed, and starts and ends with a token character. */
  lemma {:induction false} StringifyShape(j: Json)
    ensures var r := Stringify(j);
      |r| >= 1 && '\n' !in r && IsValueStart(r[0]) && IsValueEnd(Last(r))
    decreases j, 0
  {
    match j
    case JNum(n) => DecimalShape(n); DigitsNoNewline(n);
    case JArr(items) => ItemsNoNewline(items);
    case JObj(fields) => FieldsNoNewline(fields);
    case _ =>
  }

  lemma DigitsNoNewline(n: int)
    ensures '\n' !in Decimal(n)
  {
    var r := Decimal(n);
    var d := if n < 0 then Digits(-n) else Digits(n);
    assert forall i :: 0 <= i < |d| ==> IsDigit(d[i]);
  }

  lemma {:induction false} ItemsNoNewline(items: seq<Json>)
    ensures '\n' !in StringifyItems(items)
    decreases items, 1
  {
    if |items| >= 1 {
      StringifyShape(items[0]);
      if |items| > 1 {
        ItemsNoNewline(items[1..]);
      }
    }
  }

  lemma {:induction false} FieldsNoNewline(fields: seq<Field>)
    ensures '\n' !in StringifyFields(fields)
    decreases fields, 2
  {
    if |fields| >= 1 {
      StringifyShape(fields[0].value);
      if |fields| > 1 {
        FieldsNoNewline(fields[1..]);
      }
    }
  }

  /** No value serialises to the text `[DONE]` that ends an upstream event stream. */
  lemma StringifyNotDone(j: Json)
    ensures Stringify(j) != "[DONE]"
  {
    var done := "[DONE]";
    assert done[0] == '[' && done[1] == 'D';
    if j.JArr? && |j.items| > 0 {
      StringifyShape(j.items[0]);
      var inner := StringifyItems(j.items);
      assert inner[0] == Stringify(j.items[0])[0];
      assert Stringify(j)[1] == inner[0];
    } else if j.JNum? {
      DecimalShape(j.n);
    }
  }
}
