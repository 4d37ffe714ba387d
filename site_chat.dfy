/**
 * The chat handler of the web site's serverless functions (`frontend/api/chat.js`). A
 * question about solar panel cleaning prices or booking is answered from the quote
 * endpoint once the panel count and the city are known; any other question goes to the
 * chat-completions API. The quote endpoint and the completion request are parameters.
 */
module SiteChat {
  import opened Base
  import opened Text
  import opened Json
  import opened Http
  import opened Serverless
  import OpenAi

  const SystemPrompt := "You are Sunny, the assistant for SunSweeper. "
    + "Be helpful, concise, and professional. Never "
    + "invent prices, policies, licensing, insurance, "
    + "or guarantees. Never ask for payment info. "
    + "If asked for solar panel cleaning pricing, "
    + "collect panel count and city before providing "
    + "a quote. You must accurately answer: \"Tell "
    + "me about SunSweeper\" with: Services include "
    + "solar panel washing, roof washing, and pressure "
    + "washing. Service area covers San Luis Obispo "
    + "County and Santa Barbara County. Discounts "
    + "are available for veterans, seniors, teachers, "
    + "and first responders (no specific percentage)."

  const MessageRequired := "A non-empty message field is required."
  const AskDetails := "I can help with solar panel cleaning pricing. "
    + "How many panels do you have, and what city "
    + "are you in?"
  const ScheduleNudge := " Want to get this scheduled? What day and "
    + "time works best for you?"
  const NoInstantQuote := "Thanks \U{2014} I have what I need, but I couldn't "
    + "generate an instant quote for this one. "
    + "Call or text 805-938-1515 and we'll finalize "
    + "pricing quickly."
  /** The TypeErrors reading the completion throws: on a `null` completion, and on content
      that is not a string. */
  const NullCompletion := "Cannot read properties of null (reading 'choices')"
  const NotAFunction := "data.choices?.[0]?.message?.content?.trim is not a function"

  // ---------------------------------------------------------------- intent

  /** What `isSolarPricingIntent` finds in a message. */
  datatype Intent = Intent(solar: bool, pricing: bool, booking: bool, relevant: bool)

  /** `isSolarPricingIntent(message)`: keyword tests on the lower-cased message. */
  function IntentOf(message: string): (i: Intent)
    ensures i.relevant <==> i.solar && (i.pricing || i.booking)
  {
    var lower := Lower(message);
    var solar := Contains(lower, "solar") || Contains(lower, "panel");
    var pricing := Contains(lower, "price") || Contains(lower, "quote") || Contains(lower, "cost")
      || Contains(lower, "estimate") || Contains(lower, "how much");
    var booking := Contains(lower, "book") || Contains(lower, "schedule") || Contains(lower, "appointment");
    Intent(solar, pricing, booking, solar && (pricing || booking))
  }

  lemma LowerAppend(a: string, b: string)
    ensures Lower(a + b) == Lower(a) + Lower(b)
  {
  }

  lemma ContainsWord(a: string, w: string, b: string)
    ensures Contains(a + w + b, w)
  {
    var s := a + w + b;
    assert s[|a|..|a| + |w|] == w;
    assert OccursAt(s, w, |a|);
  }

  /** The lower-cased text of five pieces holds the second and the fourth, lower-cased. */
  lemma LowerHolds(a: string, s: string, b: string, p: string, c: string)
    ensures var lower := Lower(a + s + b + p + c);
      Contains(lower, Lower(s)) && Contains(lower, Lower(p))
  {
    LowerAppend(a + s + b + p, c);
    LowerAppend(a + s + b, p);
    LowerAppend(a + s, b);
    LowerAppend(a, s);
    var la, ls, lb, lp, lc := Lower(a), Lower(s), Lower(b), Lower(p), Lower(c);
    var lower := Lower(a + s + b + p + c);
    assert lower == la + ls + (lb + lp + lc);
    ContainsWord(la, ls, lb + lp + lc);
    assert lower == (la + ls + lb) + lp + lc;
    ContainsWord(la + ls + lb, lp, lc);
  }

  /** A message that names solar panels and then a price or a booking, in any case and
      anywhere in the text, is a pricing question. */
  lemma MentionedIntent(a: string, s: string, b: string, p: string, c: string)
    requires Lower(s) == "solar" || Lower(s) == "panel"
    requires Lower(p) in {"price", "quote", "cost", "estimate", "how much", "book", "schedule", "appointment"}
    ensures var i := IntentOf(a + s + b + p + c);
      i.solar && i.relevant
      && (Lower(p) in {"price", "quote", "cost", "estimate", "how much"} ==> i.pricing)
      && (Lower(p) in {"book", "schedule", "appointment"} ==> i.booking)
  {
    LowerHolds(a, s, b, p, c);
  }

  /** A message that names neither solar nor panels is never a pricing question. */
  lemma UnrelatedIntent(message: string)
    requires !Contains(Lower(message), "solar") && !Contains(Lower(message), "panel")
    ensures !IntentOf(message).relevant && !IntentOf(message).solar
  {
  }

  // ---------------------------------------------------------------- the handler

  /** `!message || typeof message !== 'string' || !message.trim()`, negated. */
  predicate IsMessage(v: Option<Json>) {
    v.Some? && v.value.JStr? && Trim(v.value.s) != ""
  }

  /** The completion request, given the API key, the model and the messages: the parsed
      completion, or the message of the error the request ends with (the request rejects, or
      an answer that is not `ok` is thrown as `OpenAI error: <status> <text>`). */
  type Completions = (string, string, seq<Turn>) -> Result<Json, string>

  /** The two messages sent: the system prompt and the trimmed question. */
  function Prompt(message: string): (m: seq<Turn>)
    ensures |m| == 2 && m[0] == Turn("system", SystemPrompt) && m[1] == Turn("user", Trim(message))
  {
    [Turn("system", SystemPrompt), Turn("user", Trim(message))]
  }

  /** A pricing question: the details are asked for until both are known, then the quote
      endpoint answers. A body count that cannot be converted throws, and the error's message
      is the reply. */
  function QuoteAnswer(body: Json, message: string, booking: bool, headers: map<string, string>,
                       scan: string -> Captures, quote: QuoteService): Reply
  {
    match ExtractPanelCount(body, scan(message))
    case Err(e) => Reply(500, ErrorBody(e))
    case Ok(count) =>
      var city := ExtractCity(body, scan(message));
      if count.None? || city.None? || city.value == "" then Reply(200, TextReply(AskDetails))
      else
        QuoteReply(QuoteResponse(quote, RequestQuoteUrl(headers), count.value, city.value), booking)
  }

  /** The reply to a pricing question, given the quote endpoint's response; the template that
      adds the nudge throws for a price text that cannot be converted. */
  function QuoteReply(response: Json, booking: bool): Reply {
    var price := Get(Some(response), "priceText");
    if !QuoteOk(response) then Reply(200, TextReply(NoInstantQuote))
    else if booking then
      if price.Some? && Unconvertible(price.value) then Reply(500, ErrorBody(ConvertError))
      else Reply(200, TextReply(ToJsString(price) + ScheduleNudge))
    else Reply(200, ReplyOf(price))
  }

  /** Any other question: the completion's trimmed text, or `''`. A missing key throws before
      any request is made; every error is answered with its message. */
  function ModelAnswer(message: string, env: Env, complete: Completions): Reply {
    match OpenAi.ApiKey(env)
    case Err(e) => Reply(500, ErrorBody(e.message))
    case Ok(key) =>
      match complete(key, OpenAi.Model(env), Prompt(message))
      case Err(m) => Reply(500, ErrorBody(m))
      case Ok(data) =>
        match OpenAi.CompletionText(data)
        case Some(text) => Reply(200, TextReply(text))
        case None => Reply(500, ErrorBody(if data.JNull? then NullCompletion else NotAFunction))
  }

  /** The reply of `handler(req, res)`, from the method, the body and headers of the request,
      the environment, the message's captures and the two services. */
  function Answer(verb: string, raw: Option<Json>, headers: map<string, string>, env: Env,
                  scan: string -> Captures, quote: QuoteService, complete: Completions): Reply
  {
    if verb != "POST" then Reply(405, ErrorBody(OnlyPost))
    else
      match ParseBody(raw)
      case Err(e) => Reply(500, ErrorBody(e))
      case Ok(body) =>
        var message := Get(Some(body), "message");
        if !IsMessage(message) then Reply(400, ErrorBody(MessageRequired))
        else
          var intent := IntentOf(message.value.s);
          if intent.relevant then QuoteAnswer(body, message.value.s, intent.booking, headers, scan, quote)
          else ModelAnswer(message.value.s, env, complete)
  }

  /** `handler(req, res)`. The platform gives every invocation a fresh response, so its
      headers are never out on entry. */
  method Handle(req: Request, res: Response, env: Env, scan: string -> Captures,
                quote: QuoteService, complete: Completions)
    requires !res.headersSent
    modifies res
    ensures var a := Answer(req.verb, req.body, req.headers, env, scan, quote, complete);
      res.Value() == JsonReply(old(res.Value()), a.status, a.body).0
  {
    if req.verb != "POST" {
      var _ := res.Reply(405, ErrorBody(OnlyPost));
      return;
    }
    var parsed := ParseBody(req.body);
    if parsed.Err? {
      var _ := res.Reply(500, ErrorBody(parsed.error));
      return;
    }
    var body := parsed.value;
    var message := Get(Some(body), "message");
    if !IsMessage(message) {
      var _ := res.Reply(400, ErrorBody(MessageRequired));
      return;
    }
    var intent := IntentOf(message.value.s);
    var reply := if intent.relevant
      then QuoteAnswer(body, message.value.s, intent.booking, req.headers, scan, quote)
      else ModelAnswer(message.value.s, env, complete);
    var _ := res.Reply(reply.status, reply.body);
  }

  // ---------------------------------------------------------------- properties

  /** Only `POST` is served, and a body that is not JSON is answered with the parser's error. */
  lemma Validation(verb: string, raw: Option<Json>, headers: map<string, string>, env: Env,
                   scan: string -> Captures, quote: QuoteService, complete: Completions)
    ensures verb != "POST" ==> Answer(verb, raw, headers, env, scan, quote, complete) == Reply(405, ErrorBody(OnlyPost))
    ensures verb == "POST" && ParseBody(raw).Err? ==>
      Answer(verb, raw, headers, env, scan, quote, complete) == Reply(500, ErrorBody(SyntaxErrorMessage))
  {
  }

  /** A request whose body parses is refused with 400 exactly when it carries no message with
      text in it. */
  lemma MessageChecked(raw: Option<Json>, body: Json, headers: map<string, string>, env: Env,
                        scan: string -> Captures, quote: QuoteService, complete: Completions)
    requires ParseBody(raw) == Ok(body)
    ensures (Answer("POST", raw, headers, env, scan, quote, complete).status == 400)
              <==> !IsMessage(Get(Some(body), "message"))
  {
    var message := Get(Some(body), "message");
    if IsMessage(message) {
      var intent := IntentOf(message.value.s);
      QuoteStatus(body, message.value.s, intent.booking, headers, scan, quote);
      ModelStatus(message.value.s, env, complete);
    }
  }

  lemma QuoteStatus(body: Json, message: string, booking: bool, headers: map<string, string>,
                    scan: string -> Captures, quote: QuoteService)
    ensures var a := QuoteAnswer(body, message, booking, headers, scan, quote);
      a.status == 200 || a == Reply(500, ErrorBody(ConvertError))
  {
  }

  lemma ModelStatus(message: string, env: Env, complete: Completions)
    ensures ModelAnswer(message, env, complete).status in {200, 500}
  {
  }

  /** A pricing question that lacks the panel count or the city is answered by asking for
      them, and the quote endpoint is not asked. */
  lemma AskBeforeQuoting(body: Json, message: string, booking: bool, headers: map<string, string>,
                         scan: string -> Captures, quote: QuoteService, quote': QuoteService)
    requires var count := ExtractPanelCount(body, scan(message)); var city := ExtractCity(body, scan(message));
      count == Ok(None) || (count.Ok? && (city.None? || city.value == ""))
    ensures QuoteAnswer(body, message, booking, headers, scan, quote) == Reply(200, TextReply(AskDetails))
    ensures QuoteAnswer(body, message, booking, headers, scan, quote)
              == QuoteAnswer(body, message, booking, headers, scan, quote')
  {
  }

  /** With both details, the endpoint is asked at the request's own address for that count and
      city, and its response decides the reply. */
  lemma Quoting(body: Json, message: string, booking: bool, headers: map<string, string>,
                scan: string -> Captures, quote: QuoteService, count: int, city: string)
    requires ExtractPanelCount(body, scan(message)) == Ok(Some(count))
    requires ExtractCity(body, scan(message)) == Some(city) && city != ""
    ensures QuoteAnswer(body, message, booking, headers, scan, quote)
              == QuoteReply(QuoteResponse(quote, RequestQuoteUrl(headers), count, city), booking)
  {
  }

  /** When the quote request fails, the question gets the fixed apology. */
  lemma QuoteUnavailable(quote: QuoteService, url: string, count: int, city: string, booking: bool)
    requires quote(url, QuoteRequest(count, city)).None?
    ensures QuoteReply(QuoteResponse(quote, url, count, city), booking) == Reply(200, TextReply(NoInstantQuote))
  {
    FailedQuoteNotOk(quote, url, count, city);
  }

  /** A quote's price text is the reply, with an invitation to book for a booking question; a
      refused quote gets the fixed apology. The invitation cannot be added to a price text
      that does not convert, and that one error is answered with 500. */
  lemma QuoteReplies(response: Json, booking: bool)
    ensures var a := QuoteReply(response, booking); var price := Get(Some(response), "priceText");
      var throws := QuoteOk(response) && booking && price.Some? && Unconvertible(price.value);
      (a.status == 200 <==> !throws)
      && (throws ==> a == Reply(500, ErrorBody(ConvertError)))
      && (!QuoteOk(response) ==> Get(Some(a.body), "reply") == Some(JStr(NoInstantQuote)))
      && (QuoteOk(response) && booking && !throws ==>
            Get(Some(a.body), "reply") == Some(JStr(ToJsString(price) + ScheduleNudge)))
      && (QuoteOk(response) && !booking ==> Get(Some(a.body), "reply") == price)
  {
  }

  /** A pricing question whose body carries a panel count that cannot be converted is
      answered with 500 and the TypeError's message, before the city is read or the quote
      endpoint is asked. */
  lemma UnconvertibleCount(raw: Option<Json>, body: Json, headers: map<string, string>, env: Env,
                           scan: string -> Captures, quote: QuoteService, complete: Completions)
    requires ParseBody(raw) == Ok(body)
    requires var message := Get(Some(body), "message");
      IsMessage(message) && IntentOf(message.value.s).relevant
    requires var given := Get(Some(body), "panelCount"); given.Some? && Unconvertible(given.value)
    ensures Answer("POST", raw, headers, env, scan, quote, complete) == Reply(500, ErrorBody(ConvertError))
  {
  }

  /** A pricing question never reaches the completion API, and no other question reaches the
      quote endpoint. */
  lemma Routing(verb: string, raw: Option<Json>, headers: map<string, string>, env: Env, env': Env,
                scan: string -> Captures, quote: QuoteService, quote': QuoteService,
                complete: Completions, complete': Completions)
    requires verb == "POST" && ParseBody(raw).Ok?
    requires IsMessage(Get(Some(ParseBody(raw).value), "message"))
    ensures var message := Get(Some(ParseBody(raw).value), "message").value.s;
      (IntentOf(message).relevant ==>
         Answer(verb, raw, headers, env, scan, quote, complete) == Answer(verb, raw, headers, env', scan, quote, complete'))
      && (!IntentOf(message).relevant ==>
         Answer(verb, raw, headers, env, scan, quote, complete) == Answer(verb, raw, headers, env, scan, quote', complete))
  {
  }

  /** A missing key is reported before any request, an error is reported with its own
      message, and an answer is the completion's text, trimmed. */
  lemma Completing(message: string, env: Env, complete: Completions, s: string, more: seq<Json>)
    ensures OpenAi.ApiKey(env).Err? ==> ModelAnswer(message, env, complete) == Reply(500, ErrorBody(OpenAi.MissingKey.message))
    ensures var key := OpenAi.ApiKey(env);
      key.Ok? && complete(key.value, OpenAi.Model(env), Prompt(message)).Err? ==>
        ModelAnswer(message, env, complete) == Reply(500, ErrorBody(complete(key.value, OpenAi.Model(env), Prompt(message)).error))
    ensures var key := OpenAi.ApiKey(env);
      var data := JObj([Field("choices",
        JArr([JObj([Field("message", JObj([Field("role", JStr("assistant")), Field("content", JStr(s))]))])] + more))]);
      key.Ok? && complete(key.value, OpenAi.Model(env), Prompt(message)) == Ok(data) ==>
        ModelAnswer(message, env, complete) == Reply(200, TextReply(Trim(s)))
  {
    OpenAi.CompletionOfMessage(s, more);
  }
}
