/**
 * The chat route, `POST /` of the router mounted at `/api/chat`: it validates the message,
 * trims the session's history, assembles the prompt, and answers either with one JSON reply
 * or with a server-sent-events stream of tokens; on success it stores the exchange in the
 * session's history. The completion provider is a parameter: `complete` is what
 * `createCompletion(messages)` resolves to or rejects with, `stream` what the `for await`
 * loop over `streamCompletion(messages)` receives.
 */
module ChatRoute {
  import opened Base
  import opened Text
  import opened Json
  import opened Http
  import Sse
  import OpenAi

  const SystemPrompt := "You are Sunny, a concise, friendly web assistant. "
    + "Answer clearly without fluff. If asked about "
    + "business information, say: \"I can connect "
    + "you with the SunSweeper team\" and show a "
    + "placeholder contact line. If you are unsure, "
    + "say so."

  const MaxHistoryTurns := 10

  const MessageRequired := "A non-empty message field is required."
  const SessionUnavailable := "Session unavailable."
  const StreamFailed := "Failed to stream response."

  /** The body `{ error: message }`. */
  function ErrorBody(message: string): Json {
    JObj([Field("error", JStr(message))])
  }

  /** The body `{ reply }`. */
  function ReplyBody(reply: string): Json {
    JObj([Field("reply", JStr(reply))])
  }

  // ---------------------------------------------------------------- the request's parts

  /** The message of `req.body || {}` when it is a string that is not blank after trimming;
      `None` for a missing, non-string, empty or whitespace-only message. */
  function MessageOf(body: Option<Json>): (m: Option<string>)
    ensures var v := Get(Or(body, Some(JObj([]))), "message");
      m.Some? <==> v.Some? && v.value.JStr? && Trim(v.value.s) != ""
    ensures m.Some? ==> Get(Or(body, Some(JObj([]))), "message") == Some(JStr(m.value))
  {
    var v := Get(Or(body, Some(JObj([]))), "message");
    if Truthy(v) && v.value.JStr? && Trim(v.value.s) != "" then Some(v.value.s) else None
  }

  /** The last `MAX_HISTORY_TURNS * 2` entries of the history, in order. */
  function TrimHistory(history: seq<Turn>): (t: seq<Turn>)
    ensures |t| <= 20 && (|history| >= 20 ==> |t| == 20) && (|history| <= 20 ==> t == history)
    ensures t == history[|history| - |t|..]
  {
    TakeLast(history, MaxHistoryTurns * 2)
  }

  /** The messages sent to the model. */
  function Prompt(trimmed: seq<Turn>, message: string): seq<Turn> {
    [Turn("system", SystemPrompt)] + trimmed + [Turn("user", Trim(message))]
  }

  /** The prompt is the system prompt, at most twenty turns of history in their order, and
      the trimmed message last. */
  lemma PromptShape(history: seq<Turn>, message: string)
    ensures var t := TrimHistory(history); var m := Prompt(t, message);
      |m| == |t| + 2 <= 22 && m[0] == Turn("system", SystemPrompt)
      && m[1..|m| - 1] == history[|history| - |t|..] && m[|m| - 1] == Turn("user", Trim(message))
  {
    var t := TrimHistory(history);
    var m := Prompt(t, message);
    assert m[1..|m| - 1] == t;
  }

  /** The history after a reply: the trimmed history, the message and the reply. */
  function Exchange(trimmed: seq<Turn>, message: string, reply: string): seq<Turn> {
    trimmed + [Turn("user", Trim(message)), Turn("assistant", reply)]
  }

  /** A history stored after `message` was asked of `history`: at most twenty-two turns, the
      trimmed history first, then the trimmed message and an assistant's reply. */
  predicate Stores(h: seq<Turn>, history: seq<Turn>, message: string) {
    2 <= |h| <= 22 && h[..|h| - 2] == TrimHistory(history)
    && h[|h| - 2] == Turn("user", Trim(message)) && h[|h| - 1].role == "assistant"
  }

  /** The stored history never grows past twenty-two turns and ends with the exchange. */
  lemma ExchangeBound(history: seq<Turn>, message: string, reply: string)
    ensures var h := Exchange(TrimHistory(history), message, reply);
      Stores(h, history, message) && h[|h| - 1].content == reply
  {
    var t := TrimHistory(history);
    var pair := [Turn("user", Trim(message)), Turn("assistant", reply)];
    var h := t + pair;
    assert |h| == |t| + 2;
    assert h[..|t|] == t;
    assert h[|t|] == pair[0] && h[|t| + 1] == pair[1];
  }

  /** Whether the reply is streamed: `?stream=true`, or an `Accept` header naming
      `text/event-stream`. */
  predicate UseStream(query: map<string, string>, accept: Option<string>) {
    ("stream" in query && query["stream"] == "true")
    || (accept.Some? && Contains(accept.value, "text/event-stream"))
  }

  /** An `Accept` header that lists the event stream among other types selects it, and any
      other value of `stream` than `true` does not. */
  lemma StreamSelection(query: map<string, string>, before: string, after: string)
    ensures UseStream(query, Some(before + "text/event-stream" + after))
    ensures "stream" in query && query["stream"] != "true" ==> !UseStream(query, None)
  {
    var a := before + "text/event-stream" + after;
    assert a[|before|..|before| + 17] == "text/event-stream";
    assert OccursAt(a, "text/event-stream", |before|);
  }

  // ---------------------------------------------------------------- the stream

  /** What the `for await` loop receives: the tokens yielded, then either the end of the
      stream (`failure == None`) or the error it throws. */
  datatype TokenStream = TokenStream(tokens: seq<Json>, failure: Option<Error>)

  /** The event `sendEvent(res, { token })`. */
  function TokenEvent(t: Json): Json {
    JObj([Field("token", t)])
  }

  const DoneEvent := JObj([Field("done", JBool(true))])

  /** The frames written for the tokens, in order. */
  function TokenFrames(tokens: seq<Json>): string {
    if |tokens| == 0 then "" else Sse.Frame(TokenEvent(tokens[0])) + TokenFrames(tokens[1..])
  }

  /** `fullReply`: the tokens as strings, concatenated. */
  function ReplyText(tokens: seq<Json>): string {
    if |tokens| == 0 then "" else ValueString(tokens[0]) + ReplyText(tokens[1..])
  }

  /** The stored reply of a stream of string tokens is their concatenation. */
  lemma {:induction false} ReplyOfStrings(tokens: seq<Json>, texts: seq<string>)
    requires |tokens| == |texts| && forall k :: 0 <= k < |tokens| ==> tokens[k] == JStr(texts[k])
    ensures ReplyText(tokens) == Concat(texts)
  {
    if |tokens| > 0 {
      ReplyOfStrings(tokens[1..], texts[1..]);
    }
  }

  /** The `data:` lines a client cuts from the token frames. */
  function TokenLines(tokens: seq<Json>): (lines: seq<string>)
    ensures |lines| == |tokens|
  {
    if |tokens| == 0 then [] else ["data: " + Stringify(TokenEvent(tokens[0]))] + TokenLines(tokens[1..])
  }

  /** A reader of the stream cuts one frame per token, in order, before whatever follows. */
  lemma {:induction false} TokenFramesRead(tokens: seq<Json>, r: string)
    ensures var more := OpenAi.FramesOf(r);
      OpenAi.FramesOf(TokenFrames(tokens) + r) == OpenAi.Frames(TokenLines(tokens) + more.frames, more.rest)
  {
    var more := OpenAi.FramesOf(r);
    if |tokens| == 0 {
      assert TokenFrames(tokens) + r == r;
      assert TokenLines(tokens) + more.frames == more.frames;
    } else {
      var line := "data: " + Stringify(TokenEvent(tokens[0]));
      var f := Sse.Frame(TokenEvent(tokens[0]));
      var rest := TokenFrames(tokens[1..]);
      StringAssoc(f, rest, r);
      OpenAi.FrameSplit(TokenEvent(tokens[0]), rest + r);
      TokenFramesRead(tokens[1..], r);
      LinesAssoc([line], TokenLines(tokens[1..]), more.frames);
    }
  }

  lemma StringAssoc(a: string, b: string, c: string)
    ensures (a + b) + c == a + (b + c)
  {
  }

  lemma LinesAssoc(a: seq<string>, b: seq<string>, c: seq<string>)
    ensures a + (b + c) == (a + b) + c
  {
  }

  /** A whole stream reads back as one frame per token and then the closing frame, with
      nothing left over (each payload parses back to its event by `OpenAi.SentFrame`). */
  lemma StreamRead(tokens: seq<Json>, last: Json)
    ensures OpenAi.FramesOf(TokenFrames(tokens) + Sse.Frame(last))
      == OpenAi.Frames(TokenLines(tokens) + ["data: " + Stringify(last)], "")
  {
    ClosingFrame(last);
    TokenFramesRead(tokens, Sse.Frame(last));
  }

  /** The last frame of a stream is cut on its own, leaving nothing behind. */
  lemma ClosingFrame(last: Json)
    ensures OpenAi.FramesOf(Sse.Frame(last)) == OpenAi.Frames(["data: " + Stringify(last)], "")
  {
    var f := Sse.Frame(last);
    var none := OpenAi.FramesOf("");
    assert none == OpenAi.Frames([], "");
    OpenAi.FrameSplit(last, "");
    assert f + "" == f;
    var one: seq<string> := ["data: " + Stringify(last)];
    assert one + none.frames == one;
  }

  // ---------------------------------------------------------------- the handler

  /** What the handler leaves behind: the response, its outcome, and the new history of the
      session when it stores one. */
  datatype Effect = Effect(res: ResState, outcome: Outcome, history: Option<seq<Turn>>)

  /** An outcome of a JSON reply: done, or the throw passed on to `next`. */
  function Replied(r: ResState, code: int, payload: Json, history: Option<seq<Turn>>): Effect {
    var (r1, ok) := JsonReply(r, code, payload);
    Effect(r1, if ok then Stop else AdvanceErr(HeadersSent), history)
  }

  /** The streaming branch: `initSSE`, one frame per token, then `done` and the end of the
      response, or, when the stream throws, an error frame, the end, and the error passed on.
      When the headers are already out, `initSSE` throws before anything is written. */
  function StreamEffect(trimmed: seq<Turn>, message: string, s: TokenStream, r: ResState): Effect {
    if r.headersSent then Effect(r, AdvanceErr(HeadersSent), None)
    else
      var head := Sse.StreamHead(r);
      var last := if s.failure.None? then DoneEvent else ErrorBody(StreamFailed);
      var r1 := Ended(head.(body := head.body + TokenFrames(s.tokens) + Sse.Frame(last)), "");
      if s.failure.None? then Effect(r1, Stop, Some(Exchange(trimmed, message, ReplyText(s.tokens))))
      else Effect(r1, AdvanceErr(s.failure.value), None)
  }

  /** The branch that awaits the whole completion: a rejection goes on to `next`; otherwise
      the history is stored and the reply sent as `{ reply }`. */
  function CompleteEffect(trimmed: seq<Turn>, message: string, c: Result<string, Error>, r: ResState): Effect {
    match c
    case Err(e) => Effect(r, AdvanceErr(e), None)
    case Ok(reply) =>
      Replied(r, r.statusCode, ReplyBody(reply), Some(Exchange(trimmed, message, reply)))
  }

  /** The handler, as a function of the request, the session's history (`None` when the
      request has no session), the provider's answers and the response. */
  function Respond(body: Option<Json>, session: Option<seq<Turn>>, query: map<string, string>,
                   accept: Option<string>, complete: seq<Turn> -> Result<string, Error>,
                   stream: seq<Turn> -> TokenStream, r: ResState): Effect
  {
    match MessageOf(body)
    case None => Replied(r, 400, ErrorBody(MessageRequired), None)
    case Some(message) =>
      if session.None? then Replied(r, 500, ErrorBody(SessionUnavailable), None)
      else
        Answer(TrimHistory(session.value), message, UseStream(query, accept), complete, stream, r)
  }

  /** A valid request with a session: the prompt goes to the provider, streamed or not. */
  function Answer(trimmed: seq<Turn>, message: string, streamed: bool,
                  complete: seq<Turn> -> Result<string, Error>, stream: seq<Turn> -> TokenStream,
                  r: ResState): Effect
  {
    var messages := Prompt(trimmed, message);
    if streamed then StreamEffect(trimmed, message, stream(messages), r)
    else CompleteEffect(trimmed, message, complete(messages), r)
  }

  /** A missing, non-string or blank message is refused with `400` and stores nothing;
      a request without a session is refused with `500`. */
  lemma Refusals(body: Option<Json>, session: Option<seq<Turn>>, query: map<string, string>,
                 accept: Option<string>, complete: seq<Turn> -> Result<string, Error>,
                 stream: seq<Turn> -> TokenStream, r: ResState)
    requires !r.headersSent && !r.finished
    ensures var e := Respond(body, session, query, accept, complete, stream, r);
      (MessageOf(body).None? ==>
        e.res.statusCode == 400 && e.outcome == Stop && e.history.None?
        && JsonParser.Parse(e.res.body[|r.body|..]) == Some(ErrorBody(MessageRequired)))
      && (MessageOf(body).Some? && session.None? ==>
        e.res.statusCode == 500 && e.outcome == Stop && e.history.None?
        && JsonParser.Parse(e.res.body[|r.body|..]) == Some(ErrorBody(SessionUnavailable)))
  {
    JsonReplyWrites(r, 400, ErrorBody(MessageRequired));
    JsonReplyWrites(r, 500, ErrorBody(SessionUnavailable));
  }

  /** Whatever happens, a stored history is at most twenty-two turns long and ends with the
      trimmed message and the reply. */
  lemma StoredHistory(body: Option<Json>, session: Option<seq<Turn>>, query: map<string, string>,
                      accept: Option<string>, complete: seq<Turn> -> Result<string, Error>,
                      stream: seq<Turn> -> TokenStream, r: ResState)
    ensures var e := Respond(body, session, query, accept, complete, stream, r);
      e.history.Some? ==>
        MessageOf(body).Some? && session.Some? && Stores(e.history.value, session.value, MessageOf(body).value)
  {
    var e := Respond(body, session, query, accept, complete, stream, r);
    if MessageOf(body).Some? && session.Some? {
      var message := MessageOf(body).value;
      assert e == Answer(TrimHistory(session.value), message, UseStream(query, accept), complete, stream, r);
      AnswerStores(session.value, message, UseStream(query, accept), complete, stream, r);
    }
  }

  lemma AnswerStores(history: seq<Turn>, message: string, streamed: bool,
                     complete: seq<Turn> -> Result<string, Error>, stream: seq<Turn> -> TokenStream,
                     r: ResState)
    ensures var e := Answer(TrimHistory(history), message, streamed, complete, stream, r);
      e.history.Some? ==> Stores(e.history.value, history, message)
  {
    var messages := Prompt(TrimHistory(history), message);
    if streamed {
      StreamStores(history, message, stream(messages), r);
    } else {
      CompleteStores(history, message, complete(messages), r);
    }
  }

  lemma StreamStores(history: seq<Turn>, message: string, s: TokenStream, r: ResState)
    ensures var e := StreamEffect(TrimHistory(history), message, s, r);
      e.history.Some? ==> Stores(e.history.value, history, message)
  {
    ExchangeBound(history, message, ReplyText(s.tokens));
  }

  lemma CompleteStores(history: seq<Turn>, message: string, c: Result<string, Error>, r: ResState)
    ensures var e := CompleteEffect(TrimHistory(history), message, c, r);
      e.history.Some? ==> Stores(e.history.value, history, message)
  {
    if c.Ok? {
      ExchangeBound(history, message, c.value);
    }
  }

  /** A streamed reply: the stream headers, one frame per token in order, exactly one `done`
      frame, the end of the response, and the concatenated tokens stored as the reply. When
      the stream fails, an error frame takes the place of `done`, the error goes on to `next`
      and the history stays as it was. */
  lemma Streamed(trimmed: seq<Turn>, message: string, s: TokenStream, r: ResState)
    requires !r.headersSent && !r.finished
    ensures var e := StreamEffect(trimmed, message, s, r);
      var last := if s.failure.None? then DoneEvent else ErrorBody(StreamFailed);
      e.res.finished && e.res.statusCode == r.statusCode
      && "content-type" in e.res.headers && e.res.headers["content-type"] == HStr("text/event-stream")
      && |e.res.body| >= |r.body| && e.res.body[..|r.body|] == r.body
      && OpenAi.FramesOf(e.res.body[|r.body|..]) == OpenAi.Frames(TokenLines(s.tokens) + ["data: " + Stringify(last)], "")
      && (s.failure.None? ==>
            e.outcome == Stop && e.history == Some(Exchange(trimmed, message, ReplyText(s.tokens))))
      && (s.failure.Some? ==> e.outcome == AdvanceErr(s.failure.value) && e.history.None?)
  {
    var last := if s.failure.None? then DoneEvent else ErrorBody(StreamFailed);
    StreamedHead(r);
    StreamedBody(r, s.tokens, last);
  }

  /** The stream's text follows what the response held before. */
  lemma StreamedBody(r: ResState, tokens: seq<Json>, last: Json)
    ensures var res := Ended(Sse.StreamHead(r).(body := Sse.StreamHead(r).body + TokenFrames(tokens) + Sse.Frame(last)), "");
      |res.body| >= |r.body| && res.body[..|r.body|] == r.body
      && OpenAi.FramesOf(res.body[|r.body|..]) == OpenAi.Frames(TokenLines(tokens) + ["data: " + Stringify(last)], "")
  {
    var written := TokenFrames(tokens) + Sse.Frame(last);
    var head := Sse.StreamHead(r);
    var res := Ended(head.(body := head.body + TokenFrames(tokens) + Sse.Frame(last)), "");
    StreamedHead(r);
    StringAssoc(r.body, TokenFrames(tokens), Sse.Frame(last));
    assert res.body[|r.body|..] == written;
    StreamRead(tokens, last);
  }

  /** `initSSE` announces the event stream and changes nothing else the route reads. */
  lemma StreamedHead(r: ResState)
    ensures var head := Sse.StreamHead(r);
      "content-type" in head.headers && head.headers["content-type"] == HStr("text/event-stream")
      && head.body == r.body && head.statusCode == r.statusCode && head.finished == r.finished
  {
    Sse.StreamHeaders(r);
    var h := r.headers["content-type" := HStr("text/event-stream")];
    assert "cache-control" != "content-type" && "connection" != "content-type";
    assert h["cache-control" := HStr("no-cache")]["connection" := HStr("keep-alive")]["content-type"]
      == HStr("text/event-stream");
  }

  /** A reply that is not streamed: a rejected completion goes on to `next` and stores
      nothing; otherwise the history is stored, then the reply goes out as `{ reply }`. */
  lemma Completed(trimmed: seq<Turn>, message: string, c: Result<string, Error>, r: ResState)
    requires !r.headersSent && !r.finished
    ensures var e := CompleteEffect(trimmed, message, c, r);
      (c.Err? ==> e == Effect(r, AdvanceErr(c.error), None))
      && (c.Ok? ==> (e.outcome == Stop && e.history == Some(Exchange(trimmed, message, c.value))
            && e.res.statusCode == r.statusCode && e.res.finished
            && JsonParser.Parse(e.res.body[|r.body|..]) == Some(ReplyBody(c.value))))
  {
    if c.Ok? {
      JsonReplyWrites(r, r.statusCode, ReplyBody(c.value));
    }
  }

  /** The records a handler may change: the request's session, when it has one. */
  function SessionSet(session: Option<SessionRecord>): set<SessionRecord> {
    if session.Some? then {session.value} else {}
  }

  /** The `for await` loop: one frame per token, and `fullReply`. */
  method SendTokens(res: Response, tokens: seq<Json>) returns (fullReply: string)
    requires res.headersSent && !res.finished
    modifies res
    ensures res.Value() == old(res.Value()).(body := old(res.body) + TokenFrames(tokens))
    ensures fullReply == ReplyText(tokens)
  {
    fullReply := "";
    var i := 0;
    while i < |tokens|
      invariant 0 <= i <= |tokens|
      invariant res.Value() == old(res.Value()).(body := res.body)
      invariant old(res.body) + TokenFrames(tokens) == res.body + TokenFrames(tokens[i..])
      invariant ReplyText(tokens) == fullReply + ReplyText(tokens[i..])
      decreases |tokens| - i
    {
      var token := tokens[i];
      assert tokens[i..][1..] == tokens[i + 1..];
      StringAssoc(res.body, Sse.Frame(TokenEvent(token)), TokenFrames(tokens[i + 1..]));
      StringAssoc(fullReply, ValueString(token), ReplyText(tokens[i + 1..]));
      fullReply := fullReply + ValueString(token);
      Sse.SendEvent(res, TokenEvent(token));
      i := i + 1;
    }
    assert tokens[i..] == [];
  }

  /** The streaming branch of the handler. */
  method Stream(res: Response, session: SessionRecord, trimmed: seq<Turn>, message: string, s: TokenStream)
    returns (o: Outcome)
    requires !res.finished || res.headersSent
    modifies res, session
    ensures var e := StreamEffect(trimmed, message, s, old(res.Value()));
      res.Value() == e.res && o == e.outcome && session.history == e.history.GetOr(old(session.history))
  {
    ghost var r := res.Value();
    var ok := Sse.Init(res);
    if !ok {
      return AdvanceErr(HeadersSent);
    }
    var fullReply := SendTokens(res, s.tokens);
    var last := if s.failure.None? then DoneEvent else ErrorBody(StreamFailed);
    Sse.SendEvent(res, last);
    Sse.Close(res);
    if s.failure.None? {
      session.history := Exchange(trimmed, message, fullReply);
      o := Stop;
    } else {
      o := AdvanceErr(s.failure.value);
    }
  }

  /** The branch that awaits the whole completion, given what it resolved to. */
  method Complete(res: Response, session: SessionRecord, trimmed: seq<Turn>, message: string,
                  reply: Result<string, Error>) returns (o: Outcome)
    modifies res, session
    ensures var e := CompleteEffect(trimmed, message, reply, old(res.Value()));
      res.Value() == e.res && o == e.outcome && session.history == e.history.GetOr(old(session.history))
  {
    if reply.Err? {
      return AdvanceErr(reply.error);
    }
    var ok := res.Json(ReplyBody(reply.value));
    // Stored before `res.json` in the route; the record and the response are apart, and
    // the history is kept even when `res.json` throws, so the order does not show.
    session.history := Exchange(trimmed, message, reply.value);
    o := if ok then Stop else AdvanceErr(HeadersSent);
  }

  /** The route's handler. A response whose headers are unsent has not ended, as in Node. */
  method Handle(req: Request, res: Response, complete: seq<Turn> -> Result<string, Error>,
                stream: seq<Turn> -> TokenStream) returns (o: Outcome)
    requires !res.finished || res.headersSent
    modifies res, SessionSet(req.session)
    ensures var session := if req.session.Some? then Some(old(req.session.value.history)) else None;
      var e := Respond(req.body, session, req.query, req.Header("accept"), complete, stream, old(res.Value()));
      res.Value() == e.res && o == e.outcome
      && (req.session.Some? ==> req.session.value.history == e.history.GetOr(old(req.session.value.history)))
  {
    var message := MessageOf(req.body);
    if message.None? {
      var ok := res.Reply(400, ErrorBody(MessageRequired));
      return if ok then Stop else AdvanceErr(HeadersSent);
    }
    if req.session.None? {
      var ok := res.Reply(500, ErrorBody(SessionUnavailable));
      return if ok then Stop else AdvanceErr(HeadersSent);
    }
    var session := req.session.value;
    o := Ask(res, session, message.value, UseStream(req.query, req.Header("accept")), complete, stream);
  }

  /** The prompt assembled from the session's history and sent, streamed or not. */
  method Ask(res: Response, session: SessionRecord, message: string, streamed: bool,
             complete: seq<Turn> -> Result<string, Error>, stream: seq<Turn> -> TokenStream)
    returns (o: Outcome)
    requires !res.finished || res.headersSent
    modifies res, session
    ensures var e := Answer(TrimHistory(old(session.history)), message, streamed, complete, stream, old(res.Value()));
      res.Value() == e.res && o == e.outcome && session.history == e.history.GetOr(old(session.history))
  {
    var trimmed := TrimHistory(session.history);
    var messages := Prompt(trimmed, message);
    if streamed {
      o := Stream(res, session, trimmed, message, stream(messages));
    } else {
      o := Complete(res, session, trimmed, message, complete(messages));
    }
  }
}
