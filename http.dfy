/**
 * The request and response objects the framework hands to every handler, with the
 * methods the response gains from the framework (`status`, `set`, `json`, `send`,
 * `cookie`) and the Node response methods they rest on (`setHeader`, `write`, `end`,
 * `flushHeaders`).
 */
module Http {
  import opened Base
  import opened Text
  import opened Json
  import JsonParser
  import Uri

  /** A header value: one string, or several (as `Set-Cookie` may carry). */
  datatype HeaderValue = HStr(s: string) | HList(items: seq<string>)

  /** A JavaScript `Error` with the optional `status` property the framework reads. */
  datatype Error = Error(status: Option<int>, message: string)

  /** What Node throws when a header is set after the headers went out. */
  const HeadersSent := Error(None, "Cannot set headers after they are sent to the client")
  /** The TypeError of `res.end` given a truthy number or boolean. */
  const ChunkType := Error(None, "The \"chunk\" argument must be of type string "
    + "or an instance of Buffer or Uint8Array")

  /** What a handler does once its writes are done: stop, call `next()`, call `next(err)`, or throw. */
  datatype Outcome = Stop | Advance | AdvanceErr(err: Error) | Throw(thrown: Error)

  /** A reply written as `res.status(status).json(body)`. */
  datatype Reply = Reply(status: int, body: Json)

  /** One chat turn kept in a session's history. */
  datatype Turn = Turn(role: string, content: string)

  /** The record kept for a session; route handlers reassign its history. */
  class SessionRecord {
    const id: string
    const createdAt: int
    var history: seq<Turn>

    constructor (id: string, createdAt: int)
      ensures this.id == id && this.createdAt == createdAt && history == []
    {
      this.id := id;
      this.createdAt := createdAt;
      history := [];
    }
  }

  // ---------------------------------------------------------------- response state

  /** A snapshot of a response. Header names are kept lower-cased, as Node keys them. */
  datatype ResState = ResState(
    statusCode: int,
    headers: map<string, HeaderValue>,
    body: string,
    headersSent: bool,
    finished: bool)

  const FreshResponse := ResState(200, map[], "", false, false)

  function WithHeader(r: ResState, name: string, v: HeaderValue): ResState {
    r.(headers := r.headers[Lower(name) := v])
  }

  /** `res.end(chunk)`: a no-op on a response that has already ended. */
  function Ended(r: ResState, chunk: string): (r': ResState)
    ensures r'.finished && r'.statusCode == r.statusCode && r'.headers == r.headers
    ensures r.finished ==> r' == r
    ensures !r.finished ==> r'.headersSent && r'.body == r.body + chunk
  {
    if r.finished then r else r.(body := r.body + chunk, headersSent := true, finished := true)
  }

  /** `res.status(code).json(payload)`: the new state, and whether `setHeader` did not throw. */
  function JsonReply(r: ResState, code: int, payload: Json): (ResState, bool) {
    var r1 := r.(statusCode := code);
    if r1.headersSent then (r1, false)
    else (Ended(WithHeader(r1, "Content-Type", HStr("application/json")), Stringify(payload)), true)
  }

  /** On a response whose headers are still unsent, a JSON reply ends it with exactly the
      serialised payload appended, which `JSON.parse` turns back into the payload. */
  lemma JsonReplyWrites(r: ResState, code: int, payload: Json)
    requires !r.headersSent && !r.finished
    ensures var (r', ok) := JsonReply(r, code, payload);
      ok && r'.statusCode == code && r'.finished && r'.headersSent
      && r'.headers == r.headers["content-type" := HStr("application/json")]
      && |r'.body| >= |r.body| && r'.body[..|r.body|] == r.body
      && JsonParser.Parse(r'.body[|r.body|..]) == Some(payload)
  {
    var (r', ok) := JsonReply(r, code, payload);
    assert Lower("Content-Type") == "content-type";
    assert r'.body[|r.body|..] == Stringify(payload);
    JsonParser.ParseStringify(payload);
  }

  // ---------------------------------------------------------------- cookies

  /** The options `res.cookie` reads; `0` and `""` stand for an absent (falsy) option. */
  datatype CookieOptions = CookieOptions(
    maxAge: int, httpOnly: bool, sameSite: string, secure: bool, path: string)

  const NoCookieOptions := CookieOptions(0, false, "", false, "")

  /** The attributes after `name=value`, in the fixed order Max-Age, HttpOnly, SameSite,
      Secure, Path (section 4.1.1 of RFC 6265); Max-Age is in whole seconds. */
  function CookieAttributes(o: CookieOptions): seq<string> {
    (if o.maxAge != 0 then ["Max-Age=" + Decimal(o.maxAge / 1000)] else [])
    + (if o.httpOnly then ["HttpOnly"] else [])
    + (if o.sameSite != "" then ["SameSite=" + o.sameSite] else [])
    + (if o.secure then ["Secure"] else [])
    + (if o.path != "" then ["Path=" + o.path] else [])
  }

  /** The `Set-Cookie` string `res.cookie(name, value, options)` builds. */
  function CookieString(name: string, value: string, o: CookieOptions): string {
    Join([name + "=" + Uri.Encode(value)] + CookieAttributes(o), "; ")
  }

  /** The values a `Set-Cookie` header carries; an empty string is no value (it is falsy). */
  function SetCookieValues(h: Option<HeaderValue>): seq<string> {
    match h
    case None => []
    case Some(HStr(s)) => if s == "" then [] else [s]
    case Some(HList(items)) => items
  }

  /** The `Set-Cookie` header after `res.cookie` adds `c`. */
  function AppendSetCookie(existing: Option<HeaderValue>, c: string): (h: HeaderValue)
    ensures SetCookieValues(Some(h)) == SetCookieValues(existing) + [c] || (c == "" && h == HStr(c))
  {
    match existing
    case Some(HList(items)) => HList(items + [c])
    case Some(HStr(s)) => if s == "" then HStr(c) else HList([s, c])
    case None => HStr(c)
  }

  /** Max-Age is `maxAge` milliseconds rounded down to whole seconds. */
  lemma MaxAgeSeconds(maxAge: int)
    ensures var n := maxAge / 1000; n * 1000 <= maxAge < n * 1000 + 1000
  {
  }

  /** `Join` puts the separator exactly between consecutive parts. */
  lemma {:induction false} JoinCons(head: string, tail: seq<string>, sep: string)
    ensures Join([head] + tail, sep) == if |tail| == 0 then head else head + sep + Join(tail, sep)
  {
    if |tail| > 0 {
      assert ([head] + tail)[1..] == tail;
    }
  }

  /** The cookie string opens with `name=` and the encoded value; anything after it starts
      with `"; "`. */
  lemma CookieHead(name: string, value: string, o: CookieOptions)
    ensures var head := name + "=" + Uri.Encode(value);
      var c := CookieString(name, value, o);
      head <= c && (|c| == |head| || c[|head|..|head| + 2] == "; ")
  {
    var head := name + "=" + Uri.Encode(value);
    var attrs := CookieAttributes(o);
    JoinCons(head, attrs, "; ");
    if |attrs| > 0 {
      var c := head + "; " + Join(attrs, "; ");
      assert c[|head|..|head| + 2] == "; ";
    }
  }

  /** With every option set, the attributes appear in their fixed order. */
  lemma CookieAllOptions(name: string, value: string, maxAge: int, sameSite: string, path: string)
    requires maxAge != 0 && sameSite != "" && path != ""
    ensures CookieString(name, value, CookieOptions(maxAge, true, sameSite, true, path))
      == Join([name + "=" + Uri.Encode(value), "Max-Age=" + Decimal(maxAge / 1000), "HttpOnly",
               "SameSite=" + sameSite, "Secure", "Path=" + path], "; ")
  {
    var attrs := AllAttributes(maxAge, sameSite, path);
    assert [name + "=" + Uri.Encode(value)] + attrs
      == [name + "=" + Uri.Encode(value), attrs[0], attrs[1], attrs[2], attrs[3], attrs[4]];
  }

  lemma AllAttributes(maxAge: int, sameSite: string, path: string) returns (attrs: seq<string>)
    requires maxAge != 0 && sameSite != "" && path != ""
    ensures attrs == CookieAttributes(CookieOptions(maxAge, true, sameSite, true, path))
    ensures attrs == ["Max-Age=" + Decimal(maxAge / 1000), "HttpOnly", "SameSite=" + sameSite,
                      "Secure", "Path=" + path]
  {
    attrs := CookieAttributes(CookieOptions(maxAge, true, sameSite, true, path));
  }

  // ---------------------------------------------------------------- the response object

  class Response {
    var statusCode: int
    var headers: map<string, HeaderValue>
    var body: string
    var headersSent: bool
    var finished: bool

    function Value(): ResState
      reads this
    {
      ResState(statusCode, headers, body, headersSent, finished)
    }

    /** `res.getHeader(name)`. */
    function Header(name: string): Option<HeaderValue>
      reads this
    {
      if Lower(name) in headers then Some(headers[Lower(name)]) else None
    }

    constructor ()
      ensures Value() == FreshResponse
    {
      statusCode := 200;
      headers := map[];
      body := "";
      headersSent := false;
      finished := false;
    }

    /** Overwrite the snapshot; used by the dispatcher to apply a handler's writes. */
    method Assign(r: ResState)
      modifies this
      ensures Value() == r
    {
      statusCode, headers, body, headersSent, finished := r.statusCode, r.headers, r.body, r.headersSent, r.finished;
    }

    /** `res.status(code)`. */
    method Status(code: int)
      modifies this
      ensures Value() == old(Value()).(statusCode := code)
    {
      statusCode := code;
    }

    /** `res.setHeader(name, v)` (and `res.set`): throws once the headers have gone out. */
    method SetHeader(name: string, v: HeaderValue) returns (ok: bool)
      modifies this
      ensures ok == !old(headersSent)
      ensures Value() == if ok then WithHeader(old(Value()), name, v) else old(Value())
    {
      if headersSent {
        return false;
      }
      headers := headers[Lower(name) := v];
      return true;
    }

    /** `res.flushHeaders()`. */
    method FlushHeaders()
      modifies this
      ensures Value() == old(Value()).(headersSent := true)
    {
      headersSent := true;
    }

    /** `res.write(chunk)` on a response that has not ended. */
    method Write(chunk: string)
      requires !finished
      modifies this
      ensures Value() == old(Value()).(body := old(body) + chunk, headersSent := true)
    {
      body := body + chunk;
      headersSent := true;
    }

    /** `res.end(chunk)`. */
    method End(chunk: string)
      modifies this
      ensures Value() == Ended(old(Value()), chunk)
    {
      if !finished {
        body := body + chunk;
        headersSent := true;
        finished := true;
      }
    }

    /** `res.json(payload)`; `ok` is false where `setHeader` throws. */
    method Json(payload: Json) returns (ok: bool)
      modifies this
      ensures (Value(), ok) == JsonReply(old(Value()).(statusCode := old(statusCode)), old(statusCode), payload)
    {
      ok := SetHeader("Content-Type", HStr("application/json"));
      if ok {
        End(Stringify(payload));
      }
    }

    /** `res.status(code).json(payload)`. */
    method Reply(code: int, payload: Json) returns (ok: bool)
      modifies this
      ensures (Value(), ok) == JsonReply(old(Value()), code, payload)
    {
      Status(code);
      ok := Json(payload);
    }

    /** `res.send(payload)`; `None` is `undefined`. Objects, arrays and `null` go out as JSON;
        anything else goes to `res.end`, which ends the response without a body for a falsy
        value and writes a string as it is. A truthy number or boolean makes `res.end` throw a
        TypeError, unless the response has already ended: then the write-after-end error is
        only reported asynchronously and the call returns normally. */
    method Send(payload: Option<Json>) returns (r: Result<(), Error>)
      modifies this
      ensures r.Err? <==> (payload.Some? && (
        ((payload.value.JBool? || payload.value.JNum?) && Truthy(payload) && !old(finished))
        || ((payload.value.JNull? || payload.value.JArr? || payload.value.JObj?) && old(headersSent))))
      ensures payload.Some? && payload.value.JStr? ==> Value() == Ended(old(Value()), payload.value.s)
      ensures payload.None? || ((payload.value.JBool? || payload.value.JNum?) && !Truthy(payload)) ==>
        Value() == Ended(old(Value()), "")
      ensures payload.Some? && (payload.value.JBool? || payload.value.JNum?) && Truthy(payload) ==>
        Value() == old(Value())
      ensures payload.Some? && (payload.value.JNull? || payload.value.JArr? || payload.value.JObj?) ==>
        Value() == JsonReply(old(Value()), old(statusCode), payload.value).0
      ensures r.Err? && !old(headersSent) ==> Value() == old(Value())
    {
      match payload
      case None =>
        End("");
        return Ok(());
      case Some(JStr(s)) =>
        End(s);
        return Ok(());
      case Some(JNum(n)) =>
        if n == 0 {
          End("");
          return Ok(());
        }
        return if finished then Ok(()) else Err(ChunkType);
      case Some(JBool(b)) =>
        if !b {
          End("");
          return Ok(());
        }
        return if finished then Ok(()) else Err(ChunkType);
      case Some(j) =>
        var ok := Json(j);
        return if ok then Ok(()) else Err(HeadersSent);
    }

    /** `res.cookie(name, value, options)`: adds the cookie string to `Set-Cookie`. */
    method Cookie(name: string, value: string, o: CookieOptions) returns (ok: bool)
      modifies this
      ensures ok == !old(headersSent)
      ensures Value() == if ok
        then WithHeader(old(Value()), "Set-Cookie", AppendSetCookie(old(Header("Set-Cookie")), CookieString(name, value, o)))
        else old(Value())
    {
      var c := CookieString(name, value, o);
      var existing := Header("Set-Cookie");
      ok := SetHeader("Set-Cookie", AppendSetCookie(existing, c));
    }
  }

  // ---------------------------------------------------------------- the request object

  /** The request fields the dispatcher reads and rewrites. */
  datatype ReqState = ReqState(verb: string, url: string, path: string)

  class Request {
    /** `req.method`. */
    var verb: string
    var url: string
    var path: string
    /** `req.query`, already parsed; repeated keys are not part of this model. */
    var query: map<string, string>
    /** Lower-cased header names, as Node keys `req.headers`. */
    var headers: map<string, string>
    var cookies: map<string, string>
    /** `req.body`; `None` is `undefined`. */
    var body: Option<Json>
    var session: Option<SessionRecord>

    function Value(): ReqState
      reads this
    {
      ReqState(verb, url, path)
    }

    /** `req.headers[name]`; `None` is `undefined`. */
    function Header(name: string): Option<string>
      reads this
    {
      if name in headers then Some(headers[name]) else None
    }

    constructor (verb: string, url: string, headers: map<string, string>, query: map<string, string>)
      ensures Value() == ReqState(verb, url, url)
      ensures this.headers == headers && this.query == query
      ensures cookies == map[] && body.None? && session.None?
    {
      this.verb := verb;
      this.url := url;
      this.path := url;
      this.query := query;
      this.headers := headers;
      cookies := map[];
      body := None;
      session := None;
    }

    method Assign(r: ReqState)
      modifies this
      ensures Value() == r
      ensures query == old(query) && headers == old(headers) && cookies == old(cookies)
      ensures body == old(body) && session == old(session)
    {
      verb, url, path := r.verb, r.url, r.path;
    }
  }
}
