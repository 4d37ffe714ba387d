/**
 * The booking handler of the web site's serverless functions (`frontend/api/book.js`): a
 * `POST` of the booking form becomes a plain-text email, one labelled line per field,
 * handed to the mail service. The mail service is a parameter.
 */
module Booking {
  import opened Base
  import opened Text
  import opened Json
  import opened Http
  import opened Serverless

  /** The email's first line, which is also its subject. */
  const Heading := "New SunSweeper booking request"
  const DefaultRecipient := "aaron@sunsweeper.com"
  const DefaultService := "Solar panel cleaning"
  const NotProvided := "Not provided"
  const NotQuoted := "Price: Not quoted yet"
  const MissingResendKey := "RESEND_API_KEY is not set"
  /** The TypeError of reading `panelCount` from a body that parsed to `null`. */
  const NullBody := "Cannot read properties of null (reading 'panelCount')"

  /** The labels of the lines after the heading and the blank line, in order. */
  const Labels: seq<string> := ["Name", "Phone", "Email", "Address", "Preferred date",
    "Preferred window", "Service", "Panel count", "Price", "Access notes", "Property type",
    "City", "Additional details"]

  /** The body field shown on each of those lines, in the same order. */
  const Keys: seq<string> := ["name", "phone", "email", "address", "preferredDate",
    "preferredWindow", "serviceType", "panelCount", "priceQuoted", "accessNotes",
    "propertyType", "city", "notes"]

  datatype Email = Email(to: string, subject: string, text: string)

  /** The mail service, given the API key and the email: it accepts the email, or the
      sending ends with an error and its message (a rejected request, an answer that is not
      `ok`, a body that is not JSON). */
  type Mailer = (string, Email) -> Result<(), string>

  /** `formatValue(caption, value)`: a falsy value, `0` and `''` among them, is not provided.
      The template throws for a truthy value that is `Unconvertible` (see `LineThrows`). */
  function FormatValue(caption: string, v: Option<Json>): string {
    caption + ": " + (if Truthy(v) then ToJsString(v) else NotProvided)
  }

  /** `formatPriceQuoted(priceQuoted)`. */
  function FormatPrice(quoted: Option<Json>): string {
    if !Truthy(quoted) then NotQuoted
    else
      match quoted.value
      case JStr(s) => "Price: " + s
      case JObj(_) => ObjectPrice(quoted)
      case JArr(_) => ObjectPrice(quoted)
      case _ => NotQuoted
  }

  /** An object's price: its `priceText` when truthy, else its numeric `price` with two
      decimals. */
  function ObjectPrice(quoted: Option<Json>): string {
    var text := Get(quoted, "priceText");
    if Truthy(text) then "Price: " + ToJsString(text)
    else
      match Get(quoted, "price")
      case Some(JNum(n)) => "Price: $" + Decimal(n) + ".00"
      case _ => NotQuoted
  }

  /** `Number.isFinite(body.panelCount) ? body.panelCount : null`. */
  function PanelCount(body: Json): Option<Json> {
    match Get(Some(body), "panelCount")
    case Some(JNum(n)) => Some(JNum(n))
    case _ => Some(JNull)
  }

  /** The value shown on line `k` after the heading: the body's field, except that the
      service defaults to the standard cleaning and only a number counts as a panel count. */
  function Shown(body: Json, k: nat): Option<Json>
    requires k < |Keys|
  {
    if k == 6 then Or(Get(Some(body), "serviceType"), Some(JStr(DefaultService)))
    else if k == 7 then PanelCount(body)
    else Get(Some(body), Keys[k])
  }

  /** Line `k` after the heading: the price line, or a labelled value. */
  function Line(body: Json, k: nat): string
    requires k < |Keys|
  {
    if k == 8 then FormatPrice(Shown(body, k)) else FormatValue(Labels[k], Shown(body, k))
  }

  /** Whether building line `k` throws: its shown value is truthy and cannot be converted; of
      the price, only an object's truthy `priceText` is converted. */
  predicate LineThrows(body: Json, k: nat)
    requires k < |Keys|
  {
    var v := Shown(body, k);
    if k == 8 then
      Truthy(v) && v.value.JObj? && Truthy(Get(v, "priceText")) && Unconvertible(Get(v, "priceText").value)
    else Truthy(v) && Unconvertible(v.value)
  }

  /** Whether building the lines throws, before the email is handed over. */
  predicate LinesThrow(body: Json) {
    exists k :: 0 <= k < |Keys| && LineThrows(body, k)
  }

  /** The lines of the email, for a body whose lines do not throw. */
  function Lines(body: Json): (ls: seq<string>)
    ensures |ls| == 15 && ls[0] == Heading && ls[1] == ""
  {
    [Heading, ""] + seq(13, k requires 0 <= k < 13 => Line(body, k))
  }

  /** `process.env.BOOKING_TO_EMAIL || 'aaron@sunsweeper.com'`. */
  function Recipient(env: map<string, string>): (to: string)
    ensures to == DefaultRecipient || ("BOOKING_TO_EMAIL" in env && to == env["BOOKING_TO_EMAIL"])
  {
    if "BOOKING_TO_EMAIL" in env && env["BOOKING_TO_EMAIL"] != "" then env["BOOKING_TO_EMAIL"] else DefaultRecipient
  }

  /** The mail service's key; `sendEmail` throws before any request when it is empty. */
  function ResendKey(env: map<string, string>): (key: Option<string>)
    ensures key.Some? <==> "RESEND_API_KEY" in env && env["RESEND_API_KEY"] != ""
  {
    if "RESEND_API_KEY" in env && env["RESEND_API_KEY"] != "" then Some(env["RESEND_API_KEY"]) else None
  }

  function BookingEmail(body: Json, env: map<string, string>): Email {
    Email(Recipient(env), Heading, Join(Lines(body), "\n"))
  }

  /** `{ ok: true }`. */
  const Accepted := JObj([Field("ok", JBool(true))])

  /** The reply of `handler(req, res)`, and the email handed to the mail service, if any. */
  function Answer(verb: string, raw: Option<Json>, env: map<string, string>, send: Mailer): (Reply, Option<Email>) {
    if verb != "POST" then (Reply(405, ErrorBody(OnlyPost)), None)
    else
      match ParseBody(raw)
      case Err(e) => (Reply(500, ErrorBody(e)), None)
      case Ok(body) =>
        if body.JNull? then (Reply(500, ErrorBody(NullBody)), None)
        else if LinesThrow(body) then (Reply(500, ErrorBody(ConvertError)), None)
        else
          var mail := BookingEmail(body, env);
          match ResendKey(env)
          case None => (Reply(500, ErrorBody(MissingResendKey)), None)
          case Some(key) =>
            match send(key, mail)
            case Ok(_) => (Reply(200, Accepted), Some(mail))
            case Err(m) => (Reply(500, ErrorBody(m)), Some(mail))
  }

  /** `handler(req, res)`; `attempted` is the email handed to the mail service. The platform
      gives every invocation a fresh response, so its headers are never out on entry. */
  method Handle(req: Request, res: Response, env: map<string, string>, send: Mailer)
    returns (attempted: Option<Email>)
    requires !res.headersSent
    modifies res
    ensures var (reply, mail) := Answer(req.verb, req.body, env, send);
      res.Value() == JsonReply(old(res.Value()), reply.status, reply.body).0 && attempted == mail
  {
    attempted := None;
    if req.verb != "POST" {
      var _ := res.Reply(405, ErrorBody(OnlyPost));
      return;
    }
    var parsed := ParseBody(req.body);
    if parsed.Err? {
      var _ := res.Reply(500, ErrorBody(parsed.error));
      return;
    }
    var body := parsed.value;
    if body.JNull? {
      var _ := res.Reply(500, ErrorBody(NullBody));
      return;
    }
    if LinesThrow(body) {
      var _ := res.Reply(500, ErrorBody(ConvertError));
      return;
    }
    var mail := BookingEmail(body, env);
    var key := ResendKey(env);
    if key.None? {
      var _ := res.Reply(500, ErrorBody(MissingResendKey));
      return;
    }
    attempted := Some(mail);
    var sent := send(key.value, mail);
    if sent.Err? {
      var _ := res.Reply(500, ErrorBody(sent.error));
    } else {
      var _ := res.Reply(200, Accepted);
    }
  }

  // ---------------------------------------------------------------- properties

  /** Any method but `POST` is refused with 405 and no email is sent. */
  lemma NotPost(verb: string, raw: Option<Json>, env: map<string, string>, send: Mailer)
    requires verb != "POST"
    ensures Answer(verb, raw, env, send) == (Reply(405, ErrorBody(OnlyPost)), None)
  {
  }

  /** An email is handed over only for a `POST` whose body parses to something other than
      `null` and whose lines can be built, and only when the key is set; it goes to the
      configured recipient under the fixed subject, and the reply is 200 exactly when the
      mail service accepts it. */
  lemma Delivery(verb: string, raw: Option<Json>, env: map<string, string>, send: Mailer)
    ensures var (reply, mail) := Answer(verb, raw, env, send);
      (mail.Some? <==> verb == "POST" && ParseBody(raw).Ok? && !ParseBody(raw).value.JNull?
                       && !LinesThrow(ParseBody(raw).value) && ResendKey(env).Some?)
      && (mail.Some? ==>
            mail.value == BookingEmail(ParseBody(raw).value, env)
            && mail.value.to == Recipient(env) && mail.value.subject == Heading
            && (reply.status == 200 <==> send(ResendKey(env).value, mail.value).Ok?)
            && (send(ResendKey(env).value, mail.value).Err? ==>
                  reply == Reply(500, ErrorBody(send(ResendKey(env).value, mail.value).error))))
  {
  }

  /** With a body and no key, the key error is the reply and nothing is sent, unless building
      the lines has already thrown. */
  lemma KeyRequired(raw: Option<Json>, env: map<string, string>, send: Mailer)
    requires ParseBody(raw).Ok? && !ParseBody(raw).value.JNull?
    requires !("RESEND_API_KEY" in env && env["RESEND_API_KEY"] != "")
    ensures Answer("POST", raw, env, send)
              == (Reply(500, ErrorBody(if LinesThrow(ParseBody(raw).value) then ConvertError else MissingResendKey)), None)
  {
  }

  /** A shown field, the service type included, whose value cannot be converted makes the
      handler answer 500 with the TypeError's message, and nothing is sent. */
  lemma UnconvertibleField(raw: Option<Json>, body: Json, env: map<string, string>, send: Mailer,
                           k: nat, v: Json)
    requires ParseBody(raw) == Ok(body)
    requires k < |Keys| && k != 7 && k != 8 && Get(Some(body), Keys[k]) == Some(v) && Unconvertible(v)
    ensures Answer("POST", raw, env, send) == (Reply(500, ErrorBody(ConvertError)), None)
  {
    assert LineThrows(body, k);
  }

  /** The panel count line never throws: only a number is shown there. */
  lemma CountLineConverts(body: Json)
    ensures !LineThrows(body, 7)
  {
  }

  /** `line` is `caption: ` followed by something. */
  predicate Captioned(line: string, caption: string) {
    |line| >= |caption| + 2 && line[..|caption| + 2] == caption + ": "
  }

  /** A formatted value is its caption, then the value or `Not provided`. */
  lemma FormatValueShape(caption: string, v: Option<Json>)
    ensures var line := FormatValue(caption, v);
      Captioned(line, caption)
      && line[|caption| + 2..] == if Truthy(v) then ToJsString(v) else NotProvided
  {
  }

  /** The price line always starts with its caption. */
  lemma PriceShape(quoted: Option<Json>)
    ensures Captioned(FormatPrice(quoted), "Price")
  {
  }

  /** The heading, a blank line, then one line per label, in order, each starting with its
      label. */
  lemma EmailLayout(body: Json)
    ensures var ls := Lines(body);
      |ls| == |Labels| + 2 && ls[0] == Heading && ls[1] == ""
      && forall k :: 0 <= k < |Labels| ==> Captioned(ls[k + 2], Labels[k])
  {
    var ls := Lines(body);
    forall k | 0 <= k < |Labels|
      ensures Captioned(ls[k + 2], Labels[k])
    {
      assert ls[k + 2] == Line(body, k);
      if k == 8 {
        PriceShape(Shown(body, k));
      } else {
        FormatValueShape(Labels[k], Shown(body, k));
      }
    }
  }

  /** When no field's text holds a line break, the email's text splits back into its lines. */
  lemma EmailLines(body: Json, env: map<string, string>)
    requires forall k :: 0 <= k < 15 ==> '\n' !in Lines(body)[k]
    ensures Split(BookingEmail(body, env).text, '\n') == Lines(body)
  {
    SplitJoined(Lines(body), '\n');
  }

  /** `0`, `''`, `false` and `null` are not provided, like a missing value; a truthy value is
      written after its caption. */
  lemma FormatValueCases(caption: string, v: Json)
    ensures FormatValue(caption, Some(JNum(0))) == FormatValue(caption, None) == caption + ": " + NotProvided
    ensures FormatValue(caption, Some(JStr(""))) == FormatValue(caption, None)
    ensures FormatValue(caption, Some(JBool(false))) == FormatValue(caption, None)
    ensures FormatValue(caption, Some(JNull)) == FormatValue(caption, None)
    ensures Truthy(Some(v)) ==> FormatValue(caption, Some(v)) == caption + ": " + ValueString(v)
  {
    var n := FormatValue(caption, None);
    assert n == n[..|caption| + 2] + n[|caption| + 2..];
    var t := FormatValue(caption, Some(v));
    assert t == t[..|caption| + 2] + t[|caption| + 2..];
  }

  /** A falsy price is not quoted; a string is the price as written. */
  lemma PriceText(s: string)
    ensures FormatPrice(None) == NotQuoted && FormatPrice(Some(JNull)) == NotQuoted
    ensures FormatPrice(Some(JStr(""))) == NotQuoted
    ensures s != "" ==> FormatPrice(Some(JStr(s))) == "Price: " + s
  {
  }

  /** An object's truthy `priceText` wins over its `price`; a numeric `price` comes next,
      with two decimals; an object with neither is not quoted. */
  lemma PriceObject(fields: seq<Field>)
    ensures var quoted := Some(JObj(fields)); var text := Get(quoted, "priceText");
      var line := FormatPrice(quoted);
      (Truthy(text) ==> line == "Price: " + ToJsString(text))
      && (!Truthy(text) && Get(quoted, "price").Some? && Get(quoted, "price").value.JNum? ==>
            line == "Price: $" + Decimal(Get(quoted, "price").value.n) + ".00")
      && (!Truthy(text) && !(Get(quoted, "price").Some? && Get(quoted, "price").value.JNum?) ==>
            line == NotQuoted)
  {
  }

  /** The panel count line shows a number other than `0`; anything else is not provided. */
  lemma PanelCountLine(body: Json)
    ensures var given := Get(Some(body), "panelCount");
      Lines(body)[9] == "Panel count: "
        + (if given.Some? && given.value.JNum? && given.value.n != 0 then Decimal(given.value.n) else NotProvided)
  {
    var line := Lines(body)[9];
    assert line == line[..13] + line[13..];
  }

  /** Without a service type, the service is solar panel cleaning. */
  lemma ServiceLine(body: Json)
    ensures var given := Get(Some(body), "serviceType");
      Lines(body)[8] == if Truthy(given) then "Service: " + ToJsString(given) else "Service: " + DefaultService
  {
    var line := Lines(body)[8];
    assert line == line[..9] + line[9..];
  }
}
