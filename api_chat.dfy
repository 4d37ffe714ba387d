/**
 * The older chat handler kept at the top of the repository (`api/chat.js`). It shares the
 * body parsing and the panel count, city and quote-address helpers of the web site's
 * handler, but it takes the quote path whenever both details are known, whatever the
 * question, insists on the API key before anything else, and reports the completion
 * API's own failures. The quote endpoint and the completion request are parameters.
 */
module ApiChat {
  import opened Base
  import opened Text
  import opened Json
  import opened Http
  import opened Serverless
  import OpenAi
  import SiteChat

  const SystemPrompt := "You are Sunny, the friendly virtual assistant "
    + "for SunSweeper. Be helpful, accurate, and "
    + "concise. Never invent prices, availability, "
    + "policies, or guarantees. If details are "
    + "missing, ask a clarifying question. If asked "
    + "\U{201C}Tell me about SunSweeper\U{201D}, provide a clean "
    + "overview: services (solar panel washing, roof "
    + "washing, pressure washing), service area (San "
    + "Luis Obispo and Santa Barbara counties), and "
    + "discounts (veterans, seniors, teachers, first "
    + "responders) without claiming specific "
    + "percentages. Maintain a professional, warm tone."

  /** The model is fixed; the environment cannot choose another. */
  const ChatModel := "gpt-4o-mini"

  const MethodNotAllowed := "Method Not Allowed"
  const InvalidBody := "Invalid request body"
  const MissingApiKey := "Missing OpenAI API key"
  const ContactTeam := "Thanks for the details. Please contact our team "
    + "so we can finalize pricing for this request."
  const RequestFailed := "OpenAI request failed"
  const EmptyResponse := "Empty response from OpenAI"
  const Unexpected := "Unexpected server error"

  /** How the completion request ends: the request rejects, the API answers with a status
      that is not `ok` and a text, or it answers `ok` with a body that is JSON or is not. */
  datatype Completion = Rejected | NotOk(status: int, text: string) | Answered(data: Option<Json>)

  /** The completion request, given the API key, the model and the messages. */
  type Completions = (string, string, seq<Turn>) -> Completion

  /** `!message || typeof message !== 'string'` rejects the message: only a non-empty string
      passes, blank or not. */
  predicate IsMessage(v: Option<Json>) {
    v.Some? && v.value.JStr? && v.value.s != ""
  }

  /** The two messages sent: the system prompt and the question as it came. */
  function Prompt(message: string): (m: seq<Turn>)
    ensures |m| == 2 && m[0] == Turn("system", SystemPrompt) && m[1] == Turn("user", message)
  {
    [Turn("system", SystemPrompt), Turn("user", message)]
  }

  /** The reply once the quote endpoint has answered: its price text when it says `ok`,
      else the invitation to contact the team. */
  function QuoteReply(response: Json): Reply {
    if QuoteOk(response) then Reply(200, ReplyOf(Get(Some(response), "priceText")))
    else Reply(200, TextReply(ContactTeam))
  }

  /** The reply made from the completion request's end. */
  function CompletionReply(c: Completion): Reply {
    match c
    case Rejected => Reply(500, ErrorBody(Unexpected))
    case NotOk(status, text) => Reply(status, ErrorBody(if text != "" then text else RequestFailed))
    case Answered(None) => Reply(500, ErrorBody(Unexpected))
    case Answered(Some(data)) =>
      match OpenAi.CompletionText(data)
      case None => Reply(500, ErrorBody(Unexpected))
      case Some(text) => if text == "" then Reply(500, ErrorBody(EmptyResponse)) else Reply(200, TextReply(text))
  }

  /** Both details are known: the count is a number and the city is not empty. */
  predicate HasDetails(body: Json, captures: Captures) {
    var count := ExtractPanelCount(body, captures); var city := ExtractCity(body, captures);
    count.Ok? && count.value.Some? && city.Some? && city.value != ""
  }

  /** The reply to a request whose message and key are in order. Reading the count throws for
      a body count that cannot be converted, and the handler's `catch` answers that alike with
      every other error. */
  function Completed(body: Json, message: string, key: string, headers: map<string, string>,
                     scan: string -> Captures, quote: QuoteService, complete: Completions): Reply
  {
    var captures := scan(message);
    if ExtractPanelCount(body, captures).Err? then Reply(500, ErrorBody(Unexpected))
    else if HasDetails(body, captures) then
      QuoteReply(QuoteResponse(quote, RequestQuoteUrl(headers),
                               ExtractPanelCount(body, captures).value.value, ExtractCity(body, captures).value))
    else CompletionReply(complete(key, ChatModel, Prompt(message)))
  }

  /** The reply of `handler(req, res)`, or the error it rejects with: a body that is not JSON
      is parsed outside the handler's `try`, so nothing answers it. */
  function Answer(verb: string, raw: Option<Json>, headers: map<string, string>, env: map<string, string>,
                  scan: string -> Captures, quote: QuoteService, complete: Completions): Result<Reply, string>
  {
    if verb != "POST" then Ok(Reply(405, ErrorBody(MethodNotAllowed)))
    else
      match ParseBody(raw)
      case Err(e) => Err(e)
      case Ok(body) =>
        var message := Get(Some(body), "message");
        if !IsMessage(message) then Ok(Reply(400, ErrorBody(InvalidBody)))
        else
          match OpenAi.ApiKey(env)
          case Err(_) => Ok(Reply(500, ErrorBody(MissingApiKey)))
          case Ok(key) => Ok(Completed(body, message.value.s, key, headers, scan, quote, complete))
  }

  /** The response after the handler: untouched when it rejects; a refused method is first
      given `Allow: POST`, which throws on a response whose headers are out. */
  function Written(verb: string, a: Result<Reply, string>, r: ResState): ResState {
    match a
    case Err(_) => r
    case Ok(reply) =>
      if verb != "POST" && r.headersSent then r
      else JsonReply(if verb != "POST" then WithHeader(r, "Allow", HStr("POST")) else r, reply.status, reply.body).0
  }

  /** `handler(req, res)`; `failed` is the error the call rejects with. The platform gives
      every invocation a fresh response, so its headers are never out on entry. */
  method Handle(req: Request, res: Response, env: map<string, string>, scan: string -> Captures,
                quote: QuoteService, complete: Completions) returns (failed: Option<string>)
    requires !res.headersSent
    modifies res
    ensures var a := Answer(req.verb, req.body, req.headers, env, scan, quote, complete);
      res.Value() == Written(req.verb, a, old(res.Value()))
      && (failed.None? <==> a.Ok?)
      && (a.Err? ==> failed == Some(a.error))
  {
    if req.verb != "POST" {
      var ok := res.SetHeader("Allow", HStr("POST"));
      if !ok {
        return Some(HeadersSent.message);
      }
      ok := res.Reply(405, ErrorBody(MethodNotAllowed));
      return None;
    }
    var parsed := ParseBody(req.body);
    if parsed.Err? {
      return Some(parsed.error);
    }
    var body := parsed.value;
    var message := Get(Some(body), "message");
    if !IsMessage(message) {
      var _ := res.Reply(400, ErrorBody(InvalidBody));
      return None;
    }
    var key := OpenAi.ApiKey(env);
    if key.Err? {
      var _ := res.Reply(500, ErrorBody(MissingApiKey));
      return None;
    }
    var reply := Completed(body, message.value.s, key.value, req.headers, scan, quote, complete);
    var _ := res.Reply(reply.status, reply.body);
    failed := None;
  }

  // ---------------------------------------------------------------- properties

  /** Any method but `POST` is refused with 405. */
  lemma NotPost(verb: string, raw: Option<Json>, headers: map<string, string>, env: map<string, string>,
                scan: string -> Captures, quote: QuoteService, complete: Completions)
    requires verb != "POST"
    ensures Answer(verb, raw, headers, env, scan, quote, complete) == Ok(Reply(405, ErrorBody(MethodNotAllowed)))
  {
  }

  /** A refused method's reply goes out as JSON, saying which method is allowed. */
  lemma AllowSent(verb: string, reply: Reply, r: ResState)
    requires verb != "POST" && !r.headersSent && !r.finished
    ensures var r' := Written(verb, Ok(reply), r);
      r'.statusCode == reply.status && r'.finished
      && "allow" in r'.headers && r'.headers["allow"] == HStr("POST")
      && "content-type" in r'.headers && r'.headers["content-type"] == HStr("application/json")
  {
    assert Lower("Allow") == "allow";
    assert Lower("Content-Type") == "content-type";
    var r1 := WithHeader(r, "Allow", HStr("POST"));
    var r2 := WithHeader(r1.(statusCode := reply.status), "Content-Type", HStr("application/json"));
    assert r2.headers["allow"] == HStr("POST");
    assert Written(verb, Ok(reply), r) == Ended(r2, Stringify(reply.body));
  }

  /** A `POST` body that is not JSON makes the handler reject, and the response is left as it
      was: no reply is ever sent. */
  lemma UnparsedBody(raw: Option<Json>, headers: map<string, string>, env: map<string, string>,
                     scan: string -> Captures, quote: QuoteService, complete: Completions, r: ResState)
    ensures var a := Answer("POST", raw, headers, env, scan, quote, complete);
      (a.Err? <==> ParseBody(raw).Err?)
      && (a.Err? ==> a.error == SyntaxErrorMessage && Written("POST", a, r) == r)
  {
  }

  /** A request without a non-empty string message is refused with 400; a request with one
      gets 400 only when the completion API itself answered 400. */
  lemma MessageChecked(raw: Option<Json>, body: Json, headers: map<string, string>, env: map<string, string>,
                       scan: string -> Captures, quote: QuoteService, complete: Completions)
    requires ParseBody(raw) == Ok(body)
    ensures var a := Answer("POST", raw, headers, env, scan, quote, complete);
      (!IsMessage(Get(Some(body), "message")) ==> a == Ok(Reply(400, ErrorBody(InvalidBody))))
      && (IsMessage(Get(Some(body), "message")) && a.value.status == 400 ==>
            var message := Get(Some(body), "message").value.s;
            OpenAi.ApiKey(env).Ok? && !HasDetails(body, scan(message))
            && complete(OpenAi.ApiKey(env).value, ChatModel, Prompt(message)).NotOk?)
  {
    var message := Get(Some(body), "message");
    if IsMessage(message) && OpenAi.ApiKey(env).Ok? {
      CompletedStatus(body, message.value.s, OpenAi.ApiKey(env).value, headers, scan, quote, complete);
    }
  }

  lemma CompletedStatus(body: Json, message: string, key: string, headers: map<string, string>,
                        scan: string -> Captures, quote: QuoteService, complete: Completions)
    ensures var reply := Completed(body, message, key, headers, scan, quote, complete);
      reply.status == 400 ==>
        !HasDetails(body, scan(message)) && complete(key, ChatModel, Prompt(message)).NotOk?
  {
  }

  /** With a message, a missing key is reported before anything else, even a quote that
      needs no completion. */
  lemma KeyFirst(raw: Option<Json>, body: Json, headers: map<string, string>, env: map<string, string>,
                 scan: string -> Captures, quote: QuoteService, complete: Completions)
    requires ParseBody(raw) == Ok(body) && IsMessage(Get(Some(body), "message"))
    requires !("OPENAI_API_KEY" in env && env["OPENAI_API_KEY"] != "")
    ensures Answer("POST", raw, headers, env, scan, quote, complete) == Ok(Reply(500, ErrorBody(MissingApiKey)))
  {
  }

  /** With both details known the quote endpoint answers, whatever the question asks and
      whatever the completion API would say; a body count that cannot be converted is an
      unexpected error and neither service is asked; otherwise the completion API answers,
      given the question as it came, and the quote endpoint is not asked. */
  lemma Routing(body: Json, message: string, key: string, headers: map<string, string>,
                scan: string -> Captures, quote: QuoteService, quote': QuoteService,
                complete: Completions, complete': Completions)
    ensures var captures := scan(message);
      (HasDetails(body, captures) ==>
         Completed(body, message, key, headers, scan, quote, complete)
           == QuoteReply(QuoteResponse(quote, RequestQuoteUrl(headers),
                                       ExtractPanelCount(body, captures).value.value, ExtractCity(body, captures).value))
         && Completed(body, message, key, headers, scan, quote, complete)
              == Completed(body, message, key, headers, scan, quote, complete'))
      && (ExtractPanelCount(body, captures).Err? ==>
         Completed(body, message, key, headers, scan, quote, complete) == Reply(500, ErrorBody(Unexpected))
         && Completed(body, message, key, headers, scan, quote, complete)
              == Completed(body, message, key, headers, scan, quote', complete'))
      && (!HasDetails(body, captures) && ExtractPanelCount(body, captures).Ok? ==>
         Completed(body, message, key, headers, scan, quote, complete)
           == CompletionReply(complete(key, ChatModel, Prompt(message)))
         && Completed(body, message, key, headers, scan, quote, complete)
              == Completed(body, message, key, headers, scan, quote', complete))
  {
  }

  /** With a message and a key, a body count that cannot be converted is answered as an
      unexpected error, whatever the message says. */
  lemma UnconvertibleCount(raw: Option<Json>, body: Json, headers: map<string, string>, env: map<string, string>,
                           scan: string -> Captures, quote: QuoteService, complete: Completions)
    requires ParseBody(raw) == Ok(body) && IsMessage(Get(Some(body), "message")) && OpenAi.ApiKey(env).Ok?
    requires var given := Get(Some(body), "panelCount"); given.Some? && Unconvertible(given.value)
    ensures Answer("POST", raw, headers, env, scan, quote, complete) == Ok(Reply(500, ErrorBody(Unexpected)))
  {
  }

  /** A quote is a 200 whose reply is the price text when the endpoint says `ok`, and the
      invitation to contact the team otherwise, in particular when the request fails. */
  lemma QuoteReplies(quote: QuoteService, url: string, count: int, city: string)
    ensures var response := QuoteResponse(quote, url, count, city); var a := QuoteReply(response);
      a.status == 200
      && (QuoteOk(response) ==> Get(Some(a.body), "reply") == Get(Some(response), "priceText"))
      && (!QuoteOk(response) ==> Get(Some(a.body), "reply") == Some(JStr(ContactTeam)))
      && (quote(url, QuoteRequest(count, city)).None? ==> a == Reply(200, TextReply(ContactTeam)))
  {
    if quote(url, QuoteRequest(count, city)).None? {
      FailedQuoteNotOk(quote, url, count, city);
    }
  }

  /** The completion API's failures keep their status and text; a rejected request is a 500;
      an answer is the content trimmed, and a blank one is reported as empty. */
  lemma CompletionReplies(status: int, text: string, s: string, more: seq<Json>)
    ensures CompletionReply(Rejected) == Reply(500, ErrorBody(Unexpected))
    ensures CompletionReply(NotOk(status, text)).status == status
    ensures Get(Some(CompletionReply(NotOk(status, text)).body), "error")
              == Some(JStr(if text == "" then RequestFailed else text))
    ensures var data := JObj([Field("choices",
        JArr([JObj([Field("message", JObj([Field("role", JStr("assistant")), Field("content", JStr(s))]))])] + more))]);
      var a := CompletionReply(Answered(Some(data)));
      (Trim(s) == "" ==> a == Reply(500, ErrorBody(EmptyResponse)))
      && (Trim(s) != "" ==> a == Reply(200, TextReply(Trim(s))))
  {
    AnsweredReply(s, more);
  }

  lemma AnsweredReply(s: string, more: seq<Json>)
    ensures var data := JObj([Field("choices",
        JArr([JObj([Field("message", JObj([Field("role", JStr("assistant")), Field("content", JStr(s))]))])] + more))]);
      CompletionReply(Answered(Some(data))) == if Trim(s) == "" then Reply(500, ErrorBody(EmptyResponse)) else Reply(200, TextReply(Trim(s)))
  {
    OpenAi.CompletionOfMessage(s, more);
  }

  /** A blank message is refused by the web site's handler but passes this one's check and
      goes on to the key check and then to the quote endpoint or the completion API. */
  lemma BlankMessage(raw: Option<Json>, body: Json, headers: map<string, string>, env: map<string, string>,
                     scan: string -> Captures, quote: QuoteService, complete: Completions,
                     sitecomplete: SiteChat.Completions)
    requires ParseBody(raw) == Ok(body)
    requires var m := Get(Some(body), "message"); m.Some? && m.value.JStr? && m.value.s != "" && Trim(m.value.s) == ""
    ensures SiteChat.Answer("POST", raw, headers, env, scan, quote, sitecomplete)
              == Reply(400, ErrorBody(SiteChat.MessageRequired))
    ensures var message := Get(Some(body), "message").value.s; var key := OpenAi.ApiKey(env);
      Answer("POST", raw, headers, env, scan, quote, complete)
        == if key.Err? then Ok(Reply(500, ErrorBody(MissingApiKey)))
           else Ok(Completed(body, message, key.value, headers, scan, quote, complete))
  {
  }
}
