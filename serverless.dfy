/**
 * The helpers the serverless handlers share: reading the request body, the panel count and
 * the city that a request's body or message gives, and the quote endpoint the chat handlers
 * ask. The same helpers appear word for word in `frontend/api/chat.js` and `api/chat.js`
 * (and `parseBody` in `frontend/api/book.js`), so they are defined once here.
 *
 * Regular expressions are not modelled: what each message pattern captures is an input
 * (`Captures`), and the model keeps the order in which the patterns are consulted.
 */
module Serverless {
  import opened Base
  import opened Text
  import opened Json
  import JsonParser
  import Http

  type Env = map<string, string>

  // ---------------------------------------------------------------- the request body

  /** The message of the `SyntaxError` that `JSON.parse` throws on malformed text. */
  const SyntaxErrorMessage := "Unexpected token in JSON"

  /** `parseBody(req)`: an object (or array) the platform already parsed is used as it is, a
      missing or falsy body reads as `{}`, a string is parsed as JSON (`Err` is the message
      `JSON.parse` throws), and any other value reads as `{}`. */
  function ParseBody(body: Option<Json>): (r: Result<Json, string>)
    ensures r.Err? ==> r.error == SyntaxErrorMessage && body.Some? && body.value.JStr?
  {
    if Truthy(body) && (body.value.JObj? || body.value.JArr?) then Ok(body.value)
    else if !Truthy(body) then Ok(JObj([]))
    else if body.value.JStr? then
      match JsonParser.Parse(body.value.s)
      case Some(v) => Ok(v)
      case None => Err(SyntaxErrorMessage)
    else Ok(JObj([]))
  }

  /** A parsed body is kept, an absent or `null` one is `{}`, and a body sent as JSON text
      reads as the value that text encodes (`BodyText`). */
  lemma BodyForms(v: Json, b: bool)
    ensures (v.JObj? || v.JArr?) ==> ParseBody(Some(v)) == Ok(v)
    ensures ParseBody(None) == Ok(JObj([])) && ParseBody(Some(JNull)) == Ok(JObj([]))
    ensures ParseBody(Some(JBool(b))) == Ok(JObj([]))
  {
  }

  lemma BodyText(v: Json)
    ensures ParseBody(Some(JStr(Stringify(v)))) == Ok(v)
  {
    StringifyShape(v);
    var text := Stringify(v);
    assert Truthy(Some(JStr(text)));
    JsonParser.ParseStringify(v);
    assert JsonParser.Parse(text) == Some(v);
  }

  // ---------------------------------------------------------------- panel count

  /** The longest run of decimal digits at the start of `s`. */
  function LeadingDigits(s: string): (d: string)
    ensures |d| <= |s| && d == s[..|d|]
    ensures forall i :: 0 <= i < |d| ==> IsDigit(d[i])
    ensures |d| < |s| ==> !IsDigit(s[|d|])
  {
    if |s| > 0 && IsDigit(s[0]) then [s[0]] + LeadingDigits(s[1..]) else ""
  }

  /** The sign and digits `parseInt` reads once the leading white space is skipped. */
  function ParseSigned(t: string): Option<int> {
    var signed := |t| > 0 && (t[0] == '-' || t[0] == '+');
    var d := LeadingDigits(if signed then t[1..] else t);
    if d == "" then None
    else
      var v: int := DigitsValue(d);
      Some(if signed && t[0] == '-' then -v else v)
  }

  /** `Number.parseInt(s, 10)`: leading white space is skipped, then an optional sign and the
      longest run of digits are read; `None` is `NaN`, when no digit follows. */
  function ParseInt(s: string): Option<int> {
    ParseSigned(TrimStart(s))
  }

  /** Text that does not start with white space is read as it is. */
  lemma ParseUnspaced(s: string)
    requires s == [] || !IsSpace(s[0])
    ensures ParseInt(s) == ParseSigned(s)
  {
  }

  lemma {:induction false} DigitsLead(d: string, rest: string)
    requires forall i :: 0 <= i < |d| ==> IsDigit(d[i])
    requires rest == [] || !IsDigit(rest[0])
    ensures LeadingDigits(d + rest) == d
    decreases |d|
  {
    if |d| == 0 {
      assert d + rest == rest;
    } else {
      assert (d + rest)[1..] == d[1..] + rest;
      DigitsLead(d[1..], rest);
      assert [d[0]] + d[1..] == d;
    }
  }

  /** A run of digits, then text that does not start with one, reads as the run's value. */
  lemma SignedDigits(d: string, rest: string)
    requires d != [] && forall i :: 0 <= i < |d| ==> IsDigit(d[i])
    requires rest == [] || !IsDigit(rest[0])
    ensures ParseSigned(d + rest) == Some(DigitsValue(d))
  {
    var t := d + rest;
    DigitsLead(d, rest);
    assert t[0] == d[0] && IsDigit(d[0]);
    assert !(t[0] == '-' || t[0] == '+');
    assert LeadingDigits(t) == d;
  }

  /** The same after a minus sign, negated. */
  lemma NegatedDigits(d: string, rest: string)
    requires d != [] && forall i :: 0 <= i < |d| ==> IsDigit(d[i])
    requires rest == [] || !IsDigit(rest[0])
    ensures ParseSigned("-" + (d + rest)) == Some(-(DigitsValue(d) as int))
  {
    var t := "-" + (d + rest);
    assert t[0] == '-' && t[1..] == d + rest;
    NegatedText(t, d, rest);
  }

  lemma NegatedText(t: string, d: string, rest: string)
    requires d != [] && forall i :: 0 <= i < |d| ==> IsDigit(d[i])
    requires rest == [] || !IsDigit(rest[0])
    requires |t| > 0 && t[0] == '-' && t[1..] == d + rest
    ensures ParseSigned(t) == Some(-(DigitsValue(d) as int))
  {
    DigitsLead(d, rest);
  }

  /** `parseInt` reads back the decimal text of any integer, and stops at the first character
      that is not a digit: `"12 panels"` gives 12. */
  lemma ParseIntDecimal(n: int, rest: string)
    requires rest == [] || !IsDigit(rest[0])
    ensures ParseInt(Decimal(n) + rest) == Some(n)
  {
    if n < 0 {
      ParseNegative(n, rest);
    } else {
      ParseNatural(n, rest);
    }
  }

  lemma ParseNegative(n: int, rest: string)
    requires n < 0 && (rest == [] || !IsDigit(rest[0]))
    ensures ParseInt(Decimal(n) + rest) == Some(n)
  {
    var d := Digits(-n);
    DigitsRoundTrip(-n);
    NegatedDigits(d, rest);
    assert Decimal(n) + rest == "-" + (d + rest);
    ParseUnspaced("-" + (d + rest));
  }

  lemma ParseNatural(n: int, rest: string)
    requires n >= 0 && (rest == [] || !IsDigit(rest[0]))
    ensures ParseInt(Decimal(n) + rest) == Some(n)
  {
    var d := Digits(n);
    DigitsRoundTrip(n);
    SignedDigits(d, rest);
    assert Decimal(n) + rest == d + rest;
    assert IsDigit((d + rest)[0]) && !IsSpace((d + rest)[0]);
    ParseUnspaced(d + rest);
  }

  /** A non-empty run of digits reads as its value. */
  lemma ParseDigits(d: string)
    requires d != [] && forall i :: 0 <= i < |d| ==> IsDigit(d[i])
    ensures ParseInt(d) == Some(DigitsValue(d))
  {
    DigitsLead(d, "");
    assert d + "" == d;
    ParseLeadingDigit(d);
  }

  /** Text that starts with a digit reads as its leading run of digits. */
  lemma ParseLeadingDigit(s: string)
    requires |s| > 0 && IsDigit(s[0])
    ensures ParseInt(s) == Some(DigitsValue(LeadingDigits(s)))
  {
    assert !IsSpace(s[0]);
    ParseUnspaced(s);
    assert s[0] != '-' && s[0] != '+';
    assert LeadingDigits(s) != "";
  }

  /** `normalizePanelCount(raw)`: `null` and `undefined` give `None`, and so does a value whose
      text `parseInt` reads as `NaN`; anything else is that integer. `String(raw)` throws for
      a value that cannot be converted. */
  function NormalizePanelCount(raw: Option<Json>): (n: Result<Option<int>, string>)
    ensures raw.None? || raw == Some(JNull) ==> n == Ok(None)
    ensures n.Err? <==> raw.Some? && Unconvertible(raw.value)
    ensures n.Err? ==> n.error == ConvertError
  {
    if raw.None? || raw.value.JNull? then Ok(None)
    else if Unconvertible(raw.value) then Err(ConvertError)
    else Ok(ParseInt(ToJsString(raw)))
  }

  /** Text whose first character is neither white space, a sign nor a digit is `NaN`. */
  lemma NotANumber(s: string)
    requires s != [] && !IsSpace(s[0]) && !IsDigit(s[0]) && s[0] != '-' && s[0] != '+'
    ensures ParseInt(s).None?
  {
    ParseUnspaced(s);
  }

  /** A number is kept, a numeric text is read up to its first non-digit, and a boolean, an
      object or the empty text give no count; an object with its own `toString` throws. */
  lemma NormalizeKinds(n: int, rest: string, b: bool, fields: seq<Field>)
    requires rest == [] || !IsDigit(rest[0])
    ensures NormalizePanelCount(Some(JNum(n))) == Ok(Some(n))
    ensures NormalizePanelCount(Some(JStr(Decimal(n) + rest))) == Ok(Some(n))
    ensures NormalizePanelCount(Some(JBool(b))) == Ok(None)
    ensures Lookup(fields, "toString").None? ==> NormalizePanelCount(Some(JObj(fields))) == Ok(None)
    ensures Lookup(fields, "toString").Some? ==> NormalizePanelCount(Some(JObj(fields))) == Err(ConvertError)
    ensures NormalizePanelCount(Some(JStr(""))) == Ok(None)
  {
    NormalizeNumber(n);
    NormalizeText(n, rest);
    NormalizeBool(b);
    if Lookup(fields, "toString").None? {
      NormalizeObject(fields);
    }
    NormalizeEmpty();
  }

  lemma NormalizeText(n: int, rest: string)
    requires rest == [] || !IsDigit(rest[0])
    ensures NormalizePanelCount(Some(JStr(Decimal(n) + rest))) == Ok(Some(n))
  {
    ParseIntDecimal(n, rest);
  }

  lemma NormalizeEmpty()
    ensures NormalizePanelCount(Some(JStr(""))) == Ok(None)
  {
    assert TrimStart("") == "";
  }

  lemma NormalizeNumber(n: int)
    ensures NormalizePanelCount(Some(JNum(n))) == Ok(Some(n))
  {
    ParseIntDecimal(n, "");
    assert Decimal(n) + "" == Decimal(n);
  }

  lemma NormalizeBool(b: bool)
    ensures NormalizePanelCount(Some(JBool(b))) == Ok(None)
  {
    var t := ValueString(JBool(b));
    assert t[0] == 'f' || t[0] == 't';
    NotANumber(t);
  }

  lemma NormalizeObject(fields: seq<Field>)
    requires Lookup(fields, "toString").None?
    ensures NormalizePanelCount(Some(JObj(fields))) == Ok(None)
  {
    var o := ValueString(JObj(fields));
    assert o[0] == '[';
    NotANumber(o);
  }

  /** The first capture group of each pattern the handlers match against the message, `None`
      where the pattern does not match (every pattern ignores case):
      `countLabel`, the digits after "panel count" (any spacing) and a colon or equals sign;
      `countWord`, the digits after "panelcount" and a colon or equals sign;
      `panels`, digits followed by "panel" or "panels" as a word;
      `labeled`, the letters, spaces, dots, apostrophes and hyphens after "city" or "address"
      and a colon or equals sign;
      `inPlace`, the words after the word "in". */
  datatype Captures = Captures(
    countLabel: Option<string>,
    countWord: Option<string>,
    panels: Option<string>,
    labeled: Option<string>,
    inPlace: Option<string>)

  /** `extractPanelCount(message, body)`, given what the message patterns capture; it throws
      only for a body count that cannot be converted to a string. */
  function ExtractPanelCount(body: Json, m: Captures): (r: Result<Option<int>, string>)
    ensures var given := Get(Some(body), "panelCount");
      r.Err? <==> given.Some? && Unconvertible(given.value)
    ensures r.Err? ==> r.error == ConvertError
  {
    var given := Get(Some(body), "panelCount");
    if given.Some? then NormalizePanelCount(given)
    else
      var direct := if m.countLabel.Some? then m.countLabel else m.countWord;
      if direct.Some? then NormalizePanelCount(Some(JStr(direct.value)))
      else if m.panels.Some? then NormalizePanelCount(Some(JStr(m.panels.value)))
      else Ok(None)
  }

  /** A `panelCount` present in the body decides the count, even when it is `null`, whatever
      the message says. */
  lemma BodyCountFirst(body: Json, m: Captures, m': Captures)
    requires Get(Some(body), "panelCount").Some?
    ensures ExtractPanelCount(body, m) == ExtractPanelCount(body, m')
              == NormalizePanelCount(Get(Some(body), "panelCount"))
  {
  }

  /** Without one, the message is read: a labelled count first, then "N panels", else none. */
  lemma MessageCount(body: Json, m: Captures, d: string)
    requires Get(Some(body), "panelCount").None?
    requires d != [] && forall i :: 0 <= i < |d| ==> IsDigit(d[i])
    ensures m.countLabel == Some(d) ==> ExtractPanelCount(body, m) == Ok(Some(DigitsValue(d)))
    ensures m.countLabel.None? && m.countWord == Some(d) ==> ExtractPanelCount(body, m) == Ok(Some(DigitsValue(d)))
    ensures m.countLabel.None? && m.countWord.None? && m.panels == Some(d) ==>
              ExtractPanelCount(body, m) == Ok(Some(DigitsValue(d)))
    ensures m.countLabel.None? && m.countWord.None? && m.panels.None? ==> ExtractPanelCount(body, m) == Ok(None)
  {
    ParseDigits(d);
  }

  // ---------------------------------------------------------------- city

  /** The characters `/[\s,]+$/` strips from the end of a city. */
  predicate IsTrailing(c: char) {
    IsSpace(c) || c == ','
  }

  /** `s.replace(/[\s,]+$/u, '')`: `s` without its trailing white space and commas. */
  function StripEnd(s: string): (r: string)
    ensures |r| <= |s| && r == s[..|r|]
    ensures r == [] || !IsTrailing(Last(r))
    ensures forall i :: |r| <= i < |s| ==> IsTrailing(s[i])
  {
    if |s| > 0 && IsTrailing(s[|s| - 1]) then StripEnd(s[..|s| - 1]) else s
  }

  /** Every white space character is a plain space, and none is followed by another. */
  predicate Collapsed(s: string) {
    forall i :: 0 <= i < |s| && IsSpace(s[i]) ==> s[i] == ' ' && (i + 1 < |s| ==> !IsSpace(s[i + 1]))
  }

  /** `s.replace(/\s+/g, ' ')`: each run of white space becomes a single space. */
  function Collapse(s: string): (r: string)
    ensures Collapsed(r)
    ensures s == [] <==> r == []
    ensures s != [] && !IsSpace(s[0]) ==> r[0] == s[0]
    ensures s != [] && IsSpace(s[0]) ==> r[0] == ' '
    decreases |s|
  {
    if |s| == 0 then ""
    else if IsSpace(s[0]) then " " + Collapse(TrimStart(s[1..]))
    else [s[0]] + Collapse(s[1..])
  }

  /** Collapsing keeps a last character that is not white space. */
  lemma {:induction false} CollapseLast(s: string)
    requires s != [] && !IsSpace(Last(s))
    ensures Last(Collapse(s)) == Last(s)
    decreases |s|
  {
    if IsSpace(s[0]) {
      assert |s| > 1 && Last(s[1..]) == Last(s);
      TrimStartLast(s[1..]);
      CollapseLast(TrimStart(s[1..]));
    } else if |s| > 1 {
      assert Last(s[1..]) == Last(s);
      CollapseLast(s[1..]);
    }
  }

  lemma TrimStartLast(x: string)
    requires x != [] && !IsSpace(Last(x))
    ensures TrimStart(x) != [] && Last(TrimStart(x)) == Last(x)
  {
  }

  /** Text that is already collapsed stays as it is. */
  lemma {:induction false} CollapseFixed(s: string)
    requires Collapsed(s)
    ensures Collapse(s) == s
    decreases |s|
  {
    if |s| > 0 {
      assert Collapsed(s[1..]) by {
        forall i | 0 <= i < |s| - 1 && IsSpace(s[1..][i])
          ensures s[1..][i] == ' ' && (i + 1 < |s| - 1 ==> !IsSpace(s[1..][i + 1]))
        {
          assert s[1..][i] == s[i + 1];
        }
      }
      if IsSpace(s[0]) {
        assert s[1..] == [] || !IsSpace(s[1]);
        assert TrimStart(s[1..]) == s[1..];
      }
      CollapseFixed(s[1..]);
      assert [s[0]] + s[1..] == s;
    }
  }

  /** `sanitizeCity(value)`. `Some("")` stands for the empty string, which a text of commas
      alone leaves; the callers treat it as missing, since it is falsy. */
  function SanitizeCity(value: Option<Json>): (c: Option<string>)
    ensures c.None? <==> !(value.Some? && value.value.JStr? && Trim(value.value.s) != "")
  {
    if !Truthy(value) || !value.value.JStr? then None
    else
      var trimmed := Trim(value.value.s);
      if trimmed == "" then None else Some(Collapse(StripEnd(trimmed)))
  }

  /** A city neither starts nor ends with white space, does not end with a comma, and holds
      no run of white space: each space is a single plain one. */
  lemma SanitizedShape(value: Option<Json>)
    ensures var c := SanitizeCity(value);
      c.Some? ==>
        (Collapsed(c.value)
         && (c.value != [] ==> !IsSpace(c.value[0]) && !IsSpace(Last(c.value)) && Last(c.value) != ','))
  {
    var c := SanitizeCity(value);
    if c.Some? && c.value != [] {
      var s := value.value.s;
      TrimSpec(s);
      var trimmed := Trim(s);
      var stripped := StripEnd(trimmed);
      assert stripped != [];
      assert stripped[0] == trimmed[0];
      assert !IsSpace(Last(stripped));
      CollapseLast(stripped);
    }
  }

  /** Sanitising a city again gives the same city. */
  lemma SanitizeIdempotent(value: Option<Json>)
    requires SanitizeCity(value).Some? && SanitizeCity(value).value != ""
    ensures SanitizeCity(Some(JStr(SanitizeCity(value).value))) == SanitizeCity(value)
  {
    var c := SanitizeCity(value).value;
    SanitizedShape(value);
    TrimNoop(c);
    CollapseFixed(c);
  }

  /** The value `body?.city || body?.address || body?.location` yields: the first truthy one of
      the three, else `location`. */
  function BodyCity(body: Json): (v: Option<Json>)
    ensures Truthy(Get(Some(body), "city")) ==> v == Get(Some(body), "city")
    ensures !Truthy(Get(Some(body), "city")) && Truthy(Get(Some(body), "address")) ==> v == Get(Some(body), "address")
    ensures !Truthy(Get(Some(body), "city")) && !Truthy(Get(Some(body), "address")) ==> v == Get(Some(body), "location")
  {
    Or(Or(Get(Some(body), "city"), Get(Some(body), "address")), Get(Some(body), "location"))
  }

  /** `extractCity(message, body)`, given what the message patterns capture. */
  function ExtractCity(body: Json, m: Captures): Option<string> {
    var fromBody := SanitizeCity(BodyCity(body));
    if fromBody.Some? && fromBody.value != "" then fromBody
    else if m.labeled.Some? then SanitizeCity(Some(JStr(m.labeled.value)))
    else if m.inPlace.Some? then SanitizeCity(Some(JStr(m.inPlace.value)))
    else None
  }

  /** A usable city in the body wins over anything in the message. */
  lemma CityFromBody(body: Json, m: Captures)
    requires SanitizeCity(BodyCity(body)).Some? && SanitizeCity(BodyCity(body)).value != ""
    ensures ExtractCity(body, m) == SanitizeCity(BodyCity(body))
  {
  }

  /** Otherwise the labelled capture is used whenever the pattern matched, even where it
      sanitises to nothing (the "in X" capture is then never looked at); the "in X" capture
      comes last. */
  lemma CityFromMessage(body: Json, m: Captures, other: Option<string>)
    requires SanitizeCity(BodyCity(body)).None? || SanitizeCity(BodyCity(body)).value == ""
    ensures m.labeled.Some? ==>
              (ExtractCity(body, m) == SanitizeCity(Some(JStr(m.labeled.value)))
                 == ExtractCity(body, m.(inPlace := other)))
    ensures m.labeled.None? && m.inPlace.Some? ==> ExtractCity(body, m) == SanitizeCity(Some(JStr(m.inPlace.value)))
    ensures m.labeled.None? && m.inPlace.None? ==> ExtractCity(body, m).None?
  {
  }

  /** A truthy `city` that is not a string hides `address` and `location`: the body then gives
      no city at all, as if it named none. */
  lemma CityNotText(body: Json, m: Captures)
    requires Truthy(Get(Some(body), "city")) && !Get(Some(body), "city").value.JStr?
    ensures ExtractCity(body, m) == ExtractCity(JObj([]), m)
  {
    assert BodyCity(JObj([])) == None;
  }

  // ---------------------------------------------------------------- the quote endpoint

  /** The protocol `getQuoteUrl` reads from `x-forwarded-proto`: the first of several values,
      `None` for `undefined`. */
  function ForwardedProto(h: Option<Http.HeaderValue>): (p: Option<string>)
    ensures h.Some? && h.value.HStr? ==> p == Some(h.value.s)
    ensures h.Some? && h.value.HList? && |h.value.items| > 0 ==> p == Some(h.value.items[0])
  {
    match h
    case None => None
    case Some(HStr(s)) => Some(s)
    case Some(HList(items)) => if |items| > 0 then Some(items[0]) else None
  }

  /** The scheme of the quote URL: the forwarded protocol, else `http`. */
  function Scheme(proto: Option<Http.HeaderValue>): (s: string)
    ensures s != ""
    ensures ForwardedProto(proto).None? || ForwardedProto(proto).value == "" ==> s == "http"
  {
    var p := ForwardedProto(proto);
    if p.Some? && p.value != "" then p.value else "http"
  }

  const QuotePath := "/api/quote"

  /** `getQuoteUrl(req)`: the relative path without a host, otherwise an absolute URL. */
  function QuoteUrl(proto: Option<Http.HeaderValue>, host: Option<string>): (url: string)
    ensures host.None? || host.value == "" ==> url == QuotePath
  {
    if host.None? || host.value == "" then QuotePath
    else Scheme(proto) + "://" + host.value + QuotePath
  }

  /** With a host, the URL is the scheme, `://`, the host and the quote path, and the scheme
      (when it holds no colon) and the host read back off it. */
  lemma QuoteUrlParts(proto: Option<Http.HeaderValue>, host: string)
    requires host != ""
    ensures var scheme := Scheme(proto); var url := QuoteUrl(proto, Some(host));
      url == scheme + "://" + host + QuotePath
      && |url| == |scheme| + 3 + |host| + |QuotePath|
      && url[|scheme| + 3..|url| - |QuotePath|] == host
      && (':' !in scheme ==> IndexOf(url, "://") == |scheme| && url[..IndexOf(url, "://")] == scheme)
  {
    var scheme := Scheme(proto);
    var url := QuoteUrl(proto, Some(host));
    assert url[|scheme| + 3..|url| - |QuotePath|] == host;
    if ':' !in scheme {
      assert url[|scheme|..|scheme| + 3] == "://";
      assert OccursAt(url, "://", |scheme|);
      forall i | 0 <= i < |scheme|
        ensures !OccursAt(url, "://", i)
      {
        assert url[i] == scheme[i];
      }
      assert url[..|scheme|] == scheme;
    }
  }

  /** `getQuoteUrl(req)` on a request's headers (Node keys them lower-cased). */
  function RequestQuoteUrl(headers: map<string, string>): string {
    QuoteUrl(if "x-forwarded-proto" in headers then Some(Http.HStr(headers["x-forwarded-proto"])) else None,
             if "host" in headers then Some(headers["host"]) else None)
  }

  /** The JSON posted to the quote endpoint. */
  function QuoteRequest(count: int, city: string): Json {
    JObj([Field("serviceType", JStr("solar")), Field("panelCount", JNum(count)), Field("city", JStr(city))])
  }

  /** What the handlers use in place of the quote response when the request or its JSON fails. */
  const QuoteFailed := JObj([Field("ok", JBool(false)), Field("error", JStr("Quote request failed"))])

  /** The quote endpoint, given the URL and the request: its parsed response, or `None` when the
      request or the parsing of its response rejects. */
  type QuoteService = (string, Json) -> Option<Json>

  /** The quote response the handler goes on with. */
  function QuoteResponse(quote: QuoteService, url: string, count: int, city: string): Json {
    match quote(url, QuoteRequest(count, city))
    case Some(j) => j
    case None => QuoteFailed
  }

  /** `quoteResponse?.ok === true`. */
  predicate QuoteOk(response: Json) {
    Get(Some(response), "ok") == Some(JBool(true))
  }

  /** A quote request that fails is never taken for a quote. */
  lemma FailedQuoteNotOk(quote: QuoteService, url: string, count: int, city: string)
    requires quote(url, QuoteRequest(count, city)).None?
    ensures !QuoteOk(QuoteResponse(quote, url, count, city))
  {
    assert Get(Some(QuoteFailed), "ok") == Some(JBool(false));
  }

  // ---------------------------------------------------------------- reply bodies

  /** The refusal of a method other than `POST`. */
  const OnlyPost := "Only POST requests are allowed."

  /** `{ error: message }`. */
  function ErrorBody(message: string): (j: Json)
    ensures Get(Some(j), "error") == Some(JStr(message))
  {
    JObj([Field("error", JStr(message))])
  }

  /** `{ reply: v }` as `JSON.stringify` writes it: an `undefined` reply leaves the object empty. */
  function ReplyOf(v: Option<Json>): (j: Json)
    ensures Get(Some(j), "reply") == v
  {
    match v
    case None => JObj([])
    case Some(r) => JObj([Field("reply", r)])
  }

  /** `{ reply: text }`. */
  function TextReply(text: string): (j: Json)
    ensures Get(Some(j), "reply") == Some(JStr(text))
  {
    ReplyOf(Some(JStr(text)))
  }
}
