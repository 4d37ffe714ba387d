/**
 * The framework's dispatcher: an application (or router) is an ordered stack of
 * layers; `handle` walks it with a cursor that only moves forward, and each layer's
 * handlers run through a `step` continuation that strips and restores the mount prefix,
 * skips handlers that do not fit the pending error, and turns a throw into an error.
 *
 * Handlers are abstract: each writes an optional JSON reply and then stops, advances,
 * advances with an error or throws. The walk is specified by the mutually recursive
 * functions `Next` (the `next` closure) and `Steps` (the `step` closure); the class
 * `App` and the methods `RunRouter`/`RunLayer` do the same with loops and are proved
 * equal to them.
 */
module Dispatcher {
  import opened Base
  import opened Text
  import opened Json
  import opened Http

  /** A router: its stack of layers, in registration order. */
  datatype Router = Router(layers: seq<Layer>)

  /** `router.use(prefix, ...handlers)` or `router.get/post(path, ...handlers)`. */
  datatype Layer =
    | Use(prefix: string, handlers: seq<Handler>)
    | Route(verb: string, path: string, handlers: seq<Handler>)

  /** A handler, told apart as `step` tells them apart: by `handle` and by arity. */
  datatype Handler =
    /** Arity 3: writes, then stops, calls `next()`, calls `next(err)` or throws. */
    | Middleware(reply: Option<Reply>, after: Outcome)
    /** Arity 2 or less: writes, may throw, and otherwise `step` advances by itself. */
    | Endpoint(reply: Option<Reply>, fails: Option<Error>)
    /** Arity 4: an error handler. */
    | ErrorAware(reply: Option<Reply>, after: Outcome)
    /** An object with a `handle` method: a mounted router. */
    | Mounted(router: Router)

  // ---------------------------------------------------------------- paths

  /** `matchPath(target, prefix)`. */
  predicate MatchPath(target: string, prefix: string) {
    if prefix == "/" || prefix == "" then StartsWith(target, "/")
    else target == prefix || StartsWith(target, prefix + "/")
  }

  /** A root prefix matches exactly the paths that start with `/`. */
  lemma MatchRoot(target: string, prefix: string)
    requires prefix == "/" || prefix == ""
    ensures MatchPath(target, prefix) <==> |target| > 0 && target[0] == '/'
  {
  }

  /** Any other prefix matches the path itself and the paths below it, and nothing else. */
  lemma MatchOther(target: string, prefix: string)
    requires prefix != "/" && prefix != ""
    ensures MatchPath(target, prefix) <==>
      target == prefix || (|target| > |prefix| && target[..|prefix|] == prefix && target[|prefix|] == '/')
  {
    if |target| > |prefix| && target[..|prefix|] == prefix && target[|prefix|] == '/' {
      assert target[..|prefix| + 1] == prefix + "/";
    }
    if StartsWith(target, prefix + "/") {
      assert target[..|prefix|] == (prefix + "/")[..|prefix|];
    }
  }

  /** A prefix is not matched by a longer name that merely begins with it. */
  lemma NoPartialSegment()
    ensures !MatchPath("/api/chatx", "/api/chat") && MatchPath("/api/chat/x", "/api/chat")
  {
    MatchOther("/api/chatx", "/api/chat");
    MatchOther("/api/chat/x", "/api/chat");
    assert "/api/chatx"[9] == 'x';
  }

  /** The part of a request target before any query or fragment. */
  function PathPart(url: string): (p: string)
    ensures p <= url && '?' !in p && '#' !in p
    ensures |p| == |url| || url[|p|] == '?' || url[|p|] == '#'
  {
    if url == [] || url[0] == '?' || url[0] == '#' then [] else [url[0]] + PathPart(url[1..])
  }

  /** `url.parse(url).pathname || '/'`, for a request target without scheme and host. */
  function Pathname(url: string): (p: string)
    ensures p != [] && '?' !in p && '#' !in p
    ensures p == "/" || p <= url
  {
    var p := PathPart(url);
    if p == [] then "/" else p
  }

  /** `s.slice(n) || '/'`. */
  function SliceOr(s: string, n: nat): string {
    if |s| <= n then "/" else s[n..]
  }

  /** The request as `runHandlers` leaves it before the first handler: with a truthy base
      path that matches, `url` and `path` lose as many characters as the base has. */
  function Enter(req: ReqState, base: string): ReqState {
    if base != "" && MatchPath(req.path, base)
    then req.(url := SliceOr(req.url, |base|), path := SliceOr(req.path, |base|))
    else req
  }

  /** Inside a mount, the path is what follows the prefix, or `/` when nothing does. */
  lemma EnterStrips(req: ReqState, base: string)
    requires base != "" && MatchPath(req.path, base)
    ensures var p := Enter(req, base).path;
      (req.path == base + p) || (req.path == base && p == "/")
    ensures Enter(req, base).verb == req.verb
  {
    var n := |base|;
    if base == "/" {
      assert req.path[..1] == "/";
      assert req.path == req.path[..1] + req.path[1..];
    } else if req.path != base {
      assert req.path[..n + 1] == base + "/";
      assert req.path[..n] == base;
      assert req.path == req.path[..n] + req.path[n..];
    }
  }

  /** For the root prefix `/`, the path inside the layer drops its first character. */
  lemma RootMountDropsSlash()
    ensures Enter(ReqState("GET", "/health", "/health"), "/").path == "health"
  {
    assert MatchPath("/health", "/");
    assert "/health"[1..] == "health";
  }

  // ---------------------------------------------------------------- one handler

  /** A handler's writes: `res.status(code).json(body)`; `false` where `setHeader` throws. */
  function Write(res: ResState, reply: Option<Reply>): (ResState, bool) {
    match reply
    case None => (res, true)
    case Some(rp) => JsonReply(res, rp.status, rp.body)
  }

  /** Where control goes after one handler: the dispatch halts, or `step` is called with an
      error (or none), with `guarded` telling whether some `try` still encloses that call. */
  datatype Decision = Halt(res: ResState) | Proceed(err: Option<Error>, res: ResState, guarded: bool)

  /** A handler called inside `step`'s `try`, entered with `guarded` as it stood. A throw,
      whether from its writes or its own, is caught there and becomes `step(e)` outside the
      `try`; `next()` and `next(err)` are called inside it. */
  function Perform(res: ResState, reply: Option<Reply>, after: Outcome, guarded: bool): (d: Decision)
    ensures d.Halt? <==> after == Stop && Write(res, reply).1
    ensures d.res == Write(res, reply).0
    ensures d.Proceed? ==>
      (d.err.None? <==> (after == Advance && Write(res, reply).1))
      && (d.guarded <==> guarded || (Write(res, reply).1 && (after.Advance? || after.AdvanceErr?)))
  {
    var (res', ok) := Write(res, reply);
    if !ok then Proceed(Some(HeadersSent), res', guarded)
    else match after
      case Stop => Halt(res')
      case Advance => Proceed(None, res', true)
      case AdvanceErr(e) => Proceed(Some(e), res', true)
      case Throw(e) => Proceed(Some(e), res', guarded)
  }

  /** What an arity-2 handler amounts to: its writes, then a throw or `step()`. */
  function EndpointAfter(fails: Option<Error>): Outcome {
    if fails.Some? then Throw(fails.value) else Advance
  }

  /** An arity-2 handler never ends the dispatch: control always returns to `step`. */
  lemma EndpointAdvances(res: ResState, reply: Option<Reply>, fails: Option<Error>, guarded: bool)
    ensures var d := Perform(res, reply, EndpointAfter(fails), guarded);
      d.Proceed? && (d.err.None? <==> fails.None? && Write(res, reply).1)
  {
  }

  // ---------------------------------------------------------------- the walk

  /** How a walk of a stack ends: a handler stopped, or `next` ran off the end with an error
      (or none), inside some `try` or not. */
  datatype Exit = Stopped | Out(err: Option<Error>, guarded: bool)

  /** One handler invocation: which handler, the error it was handed, the path it saw. */
  datatype Call = Call(handler: Handler, err: Option<Error>, path: string)

  /** The end of a walk: how it ended, the request and response then, the indices of the
      layers `next` took from this stack, and every handler invocation, nested ones included. */
  datatype Run = Run(exit: Exit, req: ReqState, res: ResState, visited: seq<nat>, calls: seq<Call>)

  function Prepend(visited: seq<nat>, calls: seq<Call>, run: Run): Run {
    run.(visited := visited + run.visited, calls := calls + run.calls)
  }

  /** Whether `next` runs the handlers of a layer: a `use` layer when its prefix matches the
      path, a route when method and path are both equal. */
  predicate Enters(layer: Layer, req: ReqState) {
    match layer
    case Use(prefix, _) => MatchPath(req.path, prefix)
    case Route(verb, path, _) => verb == req.verb && req.path == path
  }

  /** The `basePath` `runHandlers` receives: the prefix of a `use` layer; none (`""`, which is
      as falsy as `null`) for a route. */
  function BaseOf(layer: Layer): string {
    match layer
    case Use(prefix, _) => prefix
    case Route(_, _, _) => ""
  }

  /** `next(err)` with the cursor at `idx`. */
  function Next(rt: Router, idx: nat, err: Option<Error>, req: ReqState, res: ResState, guarded: bool): Run
    requires idx <= |rt.layers|
    decreases rt, |rt.layers| - idx, 1, 0
  {
    if idx == |rt.layers| then Run(Out(err, guarded), req, res, [], [])
    else
      var layer := rt.layers[idx];
      var run :=
        if Enters(layer, req) then Steps(rt, idx, 0, req.url, req.path, err, Enter(req, BaseOf(layer)), res, guarded)
        else Next(rt, idx + 1, err, req, res, guarded);
      Prepend([idx], [], run)
  }

  /** `step(err)` in the `runHandlers` of layer `idx`, with handler `i` next. */
  function Steps(rt: Router, idx: nat, i: nat, origUrl: string, origPath: string,
                 err: Option<Error>, req: ReqState, res: ResState, guarded: bool): Run
    requires idx < |rt.layers| && i <= |rt.layers[idx].handlers|
    decreases rt, |rt.layers| - idx, 0, |rt.layers[idx].handlers| - i
  {
    var handlers := rt.layers[idx].handlers;
    if i == |handlers| then
      Next(rt, idx + 1, err, req.(url := origUrl, path := origPath), res, guarded)
    else
      var h := handlers[i];
      var call := Call(h, err, req.path);
      if err.Some? && !h.ErrorAware? then
        Steps(rt, idx, i + 1, origUrl, origPath, err, req, res, true)
      else if err.None? && h.ErrorAware? then
        Steps(rt, idx, i + 1, origUrl, origPath, err, req, res, true)
      else if h.Mounted? then
        assert rt.layers[idx] in rt.layers && h in handlers;
        var inner := Next(h.router, 0, None, req.(path := Pathname(req.url)), res, true);
        var run :=
          match inner.exit
          case Stopped => Run(Stopped, inner.req, inner.res, [], [])
          case Out(e, g) => Steps(rt, idx, i + 1, origUrl, origPath, e, inner.req, inner.res, g);
        Prepend([], [call] + inner.calls, run)
      else
        var d := Perform(res, h.reply, if h.Endpoint? then EndpointAfter(h.fails) else h.after, guarded);
        var run :=
          match d
          case Halt(res') => Run(Stopped, req, res', [], [])
          case Proceed(e, res', g) => Steps(rt, idx, i + 1, origUrl, origPath, e, req, res', g);
        Prepend([], [call], run)
  }

  // ---------------------------------------------------------------- `handle`

  /** The reply `next` writes when the stack runs out and there is no `out`. */
  function DefaultReply(err: Option<Error>): Reply {
    match err
    case None => Reply(404, JObj([Field("error", JStr("Not Found"))]))
    case Some(e) =>
      Reply(if e.status.Some? && e.status.value != 0 then e.status.value else 500,
            JObj([Field("error", JStr(if e.message != "" then e.message else "Internal Server Error"))]))
  }

  lemma DefaultReplyCases(err: Option<Error>)
    ensures err.None? ==> DefaultReply(err).status == 404
    ensures err.Some? && (err.value.status.None? || err.value.status == Some(0)) ==> DefaultReply(err).status == 500
    ensures err.Some? && err.value.status.Some? && err.value.status.value != 0 ==>
      DefaultReply(err).status == err.value.status.value
    ensures Get(Some(DefaultReply(err).body), "error") ==
      Some(JStr(if err.None? then "Not Found"
                else if err.value.message == "" then "Internal Server Error" else err.value.message))
  {
    assert DefaultReply(err).body.fields[0].key == "error";
  }

  /** The outcome of a whole request: request and response at the end, the error that
      escaped `handle` uncaught (if any), and the trace of the walk. */
  datatype Dispatch = Dispatch(req: ReqState, res: ResState, escaped: Option<Error>,
                               visited: seq<nat>, calls: seq<Call>)

  /** The default reply at the end of the stack. Once the headers are out it throws; the
      throw is caught by the innermost enclosing `try`, whose `step(e)` runs off the end
      again and writes status 500 before throwing once more, until no `try` is left. */
  function Finish(err: Option<Error>, guarded: bool, res: ResState): (ResState, Option<Error>) {
    var reply := DefaultReply(err);
    var (res', ok) := JsonReply(res, reply.status, reply.body);
    if ok then (res', None)
    else (if guarded then res'.(statusCode := 500) else res', Some(HeadersSent))
  }

  /** `handle(router, req, res)` without `out`. */
  function Served(rt: Router, verb: string, url: string, res: ResState): Dispatch {
    var run := Next(rt, 0, None, ReqState(verb, url, Pathname(url)), res, false);
    match run.exit
    case Stopped => Dispatch(run.req, run.res, None, run.visited, run.calls)
    case Out(err, guarded) =>
      var (res', escaped) := Finish(err, guarded, run.res);
      Dispatch(run.req, res', escaped, run.visited, run.calls)
  }

  /** When nothing has been sent, the end of the stack answers with the default reply. */
  lemma FinishReplies(err: Option<Error>, guarded: bool, res: ResState)
    requires !res.headersSent && !res.finished
    ensures var (res', escaped) := Finish(err, guarded, res);
      escaped.None? && res'.statusCode == DefaultReply(err).status && res'.finished
      && |res'.body| >= |res.body|
      && JsonParser.Parse(res'.body[|res.body|..]) == Some(DefaultReply(err).body)
  {
    JsonReplyWrites(res, DefaultReply(err).status, DefaultReply(err).body);
  }

  /** When something has been sent, the default reply cannot be written: an error escapes,
      the body is unchanged, and the status is 500 if a `try` caught the first throw. */
  lemma FinishEscapes(err: Option<Error>, guarded: bool, res: ResState)
    requires res.headersSent
    ensures var (res', escaped) := Finish(err, guarded, res);
      escaped == Some(HeadersSent) && res'.body == res.body && res'.headers == res.headers
      && res'.statusCode == (if guarded then 500 else DefaultReply(err).status)
  {
  }

  // ---------------------------------------------------------------- properties of the walk

  /** Strictly increasing indices in `[lo, hi)`. */
  predicate Ascending(v: seq<nat>, lo: int, hi: int) {
    (forall k :: 0 <= k < |v| ==> lo <= v[k] < hi)
    && (forall k, l :: 0 <= k < l < |v| ==> v[k] < v[l])
  }

  /** An error-aware handler runs exactly when an error is pending. */
  predicate Disciplined(calls: seq<Call>) {
    forall k :: 0 <= k < |calls| ==> (calls[k].err.Some? <==> calls[k].handler.ErrorAware?)
  }

  lemma DisciplinedAppend(a: seq<Call>, b: seq<Call>)
    requires Disciplined(a) && Disciplined(b)
    ensures Disciplined(a + b)
  {
    forall k | 0 <= k < |a + b|
      ensures (a + b)[k].err.Some? <==> (a + b)[k].handler.ErrorAware?
    {
      if k >= |a| {
        assert (a + b)[k] == b[k - |a|];
      }
    }
  }

  /** `next` takes each layer at most once, in registration order, from the cursor on. */
  lemma {:induction false} NextVisited(rt: Router, idx: nat, err: Option<Error>, req: ReqState,
                                       res: ResState, guarded: bool)
    requires idx <= |rt.layers|
    ensures Ascending(Next(rt, idx, err, req, res, guarded).visited, idx, |rt.layers|)
    decreases rt, |rt.layers| - idx, 1, 0
  {
    if idx < |rt.layers| {
      var layer := rt.layers[idx];
      if Enters(layer, req) {
        StepsVisited(rt, idx, 0, req.url, req.path, err, Enter(req, BaseOf(layer)), res, guarded);
      } else {
        NextVisited(rt, idx + 1, err, req, res, guarded);
      }
      var run :=
        if Enters(layer, req) then Steps(rt, idx, 0, req.url, req.path, err, Enter(req, BaseOf(layer)), res, guarded)
        else Next(rt, idx + 1, err, req, res, guarded);
      assert Ascending(run.visited, idx + 1, |rt.layers|);
      var v := [idx] + run.visited;
      assert forall k :: 1 <= k < |v| ==> v[k] == run.visited[k - 1];
    }
  }

  lemma {:induction false} StepsVisited(rt: Router, idx: nat, i: nat, origUrl: string, origPath: string,
                                        err: Option<Error>, req: ReqState, res: ResState, guarded: bool)
    requires idx < |rt.layers| && i <= |rt.layers[idx].handlers|
    ensures Ascending(Steps(rt, idx, i, origUrl, origPath, err, req, res, guarded).visited, idx + 1, |rt.layers|)
    decreases rt, |rt.layers| - idx, 0, |rt.layers[idx].handlers| - i
  {
    var handlers := rt.layers[idx].handlers;
    if i == |handlers| {
      NextVisited(rt, idx + 1, err, req.(url := origUrl, path := origPath), res, guarded);
    } else {
      var h := handlers[i];
      if err.Some? && !h.ErrorAware? {
        StepsVisited(rt, idx, i + 1, origUrl, origPath, err, req, res, true);
      } else if err.None? && h.ErrorAware? {
        StepsVisited(rt, idx, i + 1, origUrl, origPath, err, req, res, true);
      } else if h.Mounted? {
        assert rt.layers[idx] in rt.layers && h in handlers;
        var inner := Next(h.router, 0, None, req.(path := Pathname(req.url)), res, true);
        if inner.exit.Out? {
          StepsVisited(rt, idx, i + 1, origUrl, origPath, inner.exit.err, inner.req, inner.res, inner.exit.guarded);
        }
      } else {
        var d := Perform(res, h.reply, if h.Endpoint? then EndpointAfter(h.fails) else h.after, guarded);
        if d.Proceed? {
          StepsVisited(rt, idx, i + 1, origUrl, origPath, d.err, req, d.res, d.guarded);
        }
      }
    }
  }

  /** While an error is pending only error-aware handlers run, and they run only then;
      this holds for every invocation, in mounted routers too. */
  lemma {:induction false} NextDisciplined(rt: Router, idx: nat, err: Option<Error>, req: ReqState,
                                           res: ResState, guarded: bool)
    requires idx <= |rt.layers|
    ensures Disciplined(Next(rt, idx, err, req, res, guarded).calls)
    decreases rt, |rt.layers| - idx, 1, 0
  {
    if idx < |rt.layers| {
      var layer := rt.layers[idx];
      if Enters(layer, req) {
        StepsDisciplined(rt, idx, 0, req.url, req.path, err, Enter(req, BaseOf(layer)), res, guarded);
      } else {
        NextDisciplined(rt, idx + 1, err, req, res, guarded);
      }
    }
  }

  lemma {:induction false} StepsDisciplined(rt: Router, idx: nat, i: nat, origUrl: string, origPath: string,
                                            err: Option<Error>, req: ReqState, res: ResState, guarded: bool)
    requires idx < |rt.layers| && i <= |rt.layers[idx].handlers|
    ensures Disciplined(Steps(rt, idx, i, origUrl, origPath, err, req, res, guarded).calls)
    decreases rt, |rt.layers| - idx, 0, |rt.layers[idx].handlers| - i
  {
    var handlers := rt.layers[idx].handlers;
    if i == |handlers| {
      NextDisciplined(rt, idx + 1, err, req.(url := origUrl, path := origPath), res, guarded);
    } else {
      var h := handlers[i];
      var call := Call(h, err, req.path);
      if err.Some? && !h.ErrorAware? {
        StepsDisciplined(rt, idx, i + 1, origUrl, origPath, err, req, res, true);
      } else if err.None? && h.ErrorAware? {
        StepsDisciplined(rt, idx, i + 1, origUrl, origPath, err, req, res, true);
      } else if h.Mounted? {
        assert rt.layers[idx] in rt.layers && h in handlers;
        var inner := Next(h.router, 0, None, req.(path := Pathname(req.url)), res, true);
        NextDisciplined(h.router, 0, None, req.(path := Pathname(req.url)), res, true);
        var rest: seq<Call> := [];
        if inner.exit.Out? {
          StepsDisciplined(rt, idx, i + 1, origUrl, origPath, inner.exit.err, inner.req, inner.res, inner.exit.guarded);
          rest := Steps(rt, idx, i + 1, origUrl, origPath, inner.exit.err, inner.req, inner.res, inner.exit.guarded).calls;
        }
        DisciplinedAppend([call], inner.calls);
        DisciplinedAppend([call] + inner.calls, rest);
      } else {
        var d := Perform(res, h.reply, if h.Endpoint? then EndpointAfter(h.fails) else h.after, guarded);
        var rest: seq<Call> := [];
        if d.Proceed? {
          StepsDisciplined(rt, idx, i + 1, origUrl, origPath, d.err, req, d.res, d.guarded);
          rest := Steps(rt, idx, i + 1, origUrl, origPath, d.err, req, d.res, d.guarded).calls;
        }
        DisciplinedAppend([call], rest);
      }
    }
  }

  /** Control that leaves a stack by running off its end leaves the request as it found it:
      every layer restores the `url` and `path` it changed. The method never changes. */
  lemma {:induction false} NextRestores(rt: Router, idx: nat, err: Option<Error>, req: ReqState,
                                        res: ResState, guarded: bool)
    requires idx <= |rt.layers|
    ensures var run := Next(rt, idx, err, req, res, guarded);
      run.req.verb == req.verb && (run.exit.Out? ==> run.req == req)
    decreases rt, |rt.layers| - idx, 1, 0
  {
    if idx < |rt.layers| {
      var layer := rt.layers[idx];
      if Enters(layer, req) {
        StepsRestores(rt, idx, 0, req.url, req.path, err, Enter(req, BaseOf(layer)), res, guarded);
      } else {
        NextRestores(rt, idx + 1, err, req, res, guarded);
      }
    }
  }

  lemma {:induction false} StepsRestores(rt: Router, idx: nat, i: nat, origUrl: string, origPath: string,
                                         err: Option<Error>, req: ReqState, res: ResState, guarded: bool)
    requires idx < |rt.layers| && i <= |rt.layers[idx].handlers|
    ensures var run := Steps(rt, idx, i, origUrl, origPath, err, req, res, guarded);
      run.req.verb == req.verb && (run.exit.Out? ==> run.req == ReqState(req.verb, origUrl, origPath))
    decreases rt, |rt.layers| - idx, 0, |rt.layers[idx].handlers| - i
  {
    var handlers := rt.layers[idx].handlers;
    if i == |handlers| {
      NextRestores(rt, idx + 1, err, req.(url := origUrl, path := origPath), res, guarded);
    } else {
      var h := handlers[i];
      if err.Some? && !h.ErrorAware? {
        StepsRestores(rt, idx, i + 1, origUrl, origPath, err, req, res, true);
      } else if err.None? && h.ErrorAware? {
        StepsRestores(rt, idx, i + 1, origUrl, origPath, err, req, res, true);
      } else if h.Mounted? {
        assert rt.layers[idx] in rt.layers && h in handlers;
        var inner := Next(h.router, 0, None, req.(path := Pathname(req.url)), res, true);
        NextRestores(h.router, 0, None, req.(path := Pathname(req.url)), res, true);
        if inner.exit.Out? {
          StepsRestores(rt, idx, i + 1, origUrl, origPath, inner.exit.err, inner.req, inner.res, inner.exit.guarded);
        }
      } else {
        var d := Perform(res, h.reply, if h.Endpoint? then EndpointAfter(h.fails) else h.after, guarded);
        if d.Proceed? {
          StepsRestores(rt, idx, i + 1, origUrl, origPath, d.err, req, d.res, d.guarded);
        }
      }
    }
  }

  /** A route layer whose method or path differs is passed over with the same error. */
  lemma RouteSkip(rt: Router, idx: nat, err: Option<Error>, req: ReqState, res: ResState, guarded: bool)
    requires idx < |rt.layers| && rt.layers[idx].Route?
    requires rt.layers[idx].verb != req.verb || rt.layers[idx].path != req.path
    ensures Next(rt, idx, err, req, res, guarded)
      == Prepend([idx], [], Next(rt, idx + 1, err, req, res, guarded))
  {
  }

  /** A layer whose prefix does not match is passed over with the same error. */
  lemma UseSkip(rt: Router, idx: nat, err: Option<Error>, req: ReqState, res: ResState, guarded: bool)
    requires idx < |rt.layers| && rt.layers[idx].Use?
    requires !MatchPath(req.path, rt.layers[idx].prefix)
    ensures Next(rt, idx, err, req, res, guarded)
      == Prepend([idx], [], Next(rt, idx + 1, err, req, res, guarded))
  {
  }

  /** A handler that throws hands its error to the next handler of the same layer. */
  lemma ThrowBecomesError(rt: Router, idx: nat, i: nat, origUrl: string, origPath: string,
                          req: ReqState, res: ResState, guarded: bool, e: Error)
    requires idx < |rt.layers| && i < |rt.layers[idx].handlers|
    requires rt.layers[idx].handlers[i] == Middleware(None, Throw(e))
    ensures Steps(rt, idx, i, origUrl, origPath, None, req, res, guarded)
      == Prepend([], [Call(Middleware(None, Throw(e)), None, req.path)],
                 Steps(rt, idx, i + 1, origUrl, origPath, Some(e), req, res, guarded))
  {
  }

  // ---------------------------------------------------------------- the response to GET /health

  /** `{status: 'ok'}`. */
  const StatusOk := JObj([Field("status", JStr("ok"))])

  /** `app.get('/health', (req, res) => res.json({status: 'ok'}))`. */
  const HealthApp := Router([Route("GET", "/health", [Endpoint(Some(Reply(200, StatusOk)), None)])])

  /** One route whose only handler is an arity-2 handler that replies. */
  function OneEndpoint(verb: string, path: string, reply: Reply): Router {
    Router([Route(verb, path, [Endpoint(Some(reply), None)])])
  }

  /** The walk for a request that this route matches: the handler replies and `step()` runs
      off the end of the stack, inside the handler's `try`. */
  lemma OneEndpointRun(verb: string, path: string, reply: Reply, res: ResState)
    requires !res.headersSent && !res.finished
    ensures var req := ReqState(verb, path, path);
      var r1 := JsonReply(res, reply.status, reply.body).0;
      Next(OneEndpoint(verb, path, reply), 0, None, req, res, false)
        == Run(Out(None, true), req, r1, [0], [Call(Endpoint(Some(reply), None), None, path)])
  {
    var rt := OneEndpoint(verb, path, reply);
    var req := ReqState(verb, path, path);
    var (r1, ok) := JsonReply(res, reply.status, reply.body);
    assert ok;
    assert |rt.layers| == 1 && |rt.layers[0].handlers| == 1;
    assert req.(url := path, path := path) == req;
    assert Next(rt, 1, None, req, r1, true) == Run(Out(None, true), req, r1, [], []);
    var s := Steps(rt, 0, 1, path, path, None, req, r1, true);
    assert s == Run(Out(None, true), req, r1, [], []);
    assert Steps(rt, 0, 0, path, path, None, req, res, false)
      == Prepend([], [Call(Endpoint(Some(reply), None), None, path)], s);
  }

  /** As written, an arity-2 handler that replies still falls through to the default reply,
      which throws on the ended response: the error escapes `handle` uncaught. */
  lemma OneEndpointEscapes(verb: string, path: string, reply: Reply, res: ResState)
    requires !res.headersSent && !res.finished && Pathname(path) == path
    ensures var d := Served(OneEndpoint(verb, path, reply), verb, path, res);
      var r1 := JsonReply(res, reply.status, reply.body).0;
      d.escaped == Some(HeadersSent) && d.res == r1.(statusCode := 500)
  {
    OneEndpointRun(verb, path, reply, res);
    JsonReplyWrites(res, reply.status, reply.body);
  }

  lemma HealthPath()
    ensures Pathname("/health") == "/health"
  {
    assert PathPart("/health") == "/health";
  }

  /** `GET /health` on an application holding just that route. */
  lemma HealthEscapes()
    ensures var d := Served(HealthApp, "GET", "/health", FreshResponse);
      d.escaped == Some(HeadersSent) && d.res.statusCode == 500 && d.res.finished
      && d.res.body == Stringify(StatusOk)
  {
    HealthPath();
    OneEndpointEscapes("GET", "/health", Reply(200, StatusOk), FreshResponse);
  }

  /** The default reply written only while nothing has been sent. */
  function FinishChecked(err: Option<Error>, guarded: bool, res: ResState): (ResState, Option<Error>) {
    if res.headersSent then (res, None) else Finish(err, guarded, res)
  }

  /** `handle` with the default reply guarded by `res.headersSent`. */
  function ServedChecked(rt: Router, verb: string, url: string, res: ResState): Dispatch {
    var run := Next(rt, 0, None, ReqState(verb, url, Pathname(url)), res, false);
    match run.exit
    case Stopped => Dispatch(run.req, run.res, None, run.visited, run.calls)
    case Out(err, guarded) =>
      var (res', escaped) := FinishChecked(err, guarded, run.res);
      Dispatch(run.req, res', escaped, run.visited, run.calls)
  }

  /** With the guard nothing escapes, a reply already sent is left as it is, and otherwise
      the default reply is written. */
  lemma ServedCheckedSafe(rt: Router, verb: string, url: string, res: ResState)
    requires !res.finished
    ensures var d := ServedChecked(rt, verb, url, res);
      var run := Next(rt, 0, None, ReqState(verb, url, Pathname(url)), res, false);
      d.escaped.None?
      && (run.res.headersSent ==> d.res == run.res)
      && (run.exit.Out? && !run.res.headersSent && !run.res.finished ==>
            d.res.statusCode == DefaultReply(run.exit.err).status)
  {
    var run := Next(rt, 0, None, ReqState(verb, url, Pathname(url)), res, false);
    if run.exit.Out? && !run.res.headersSent && !run.res.finished {
      FinishReplies(run.exit.err, run.exit.guarded, run.res);
    } else if run.exit.Out? && !run.res.headersSent {
      assert JsonReply(run.res, DefaultReply(run.exit.err).status, DefaultReply(run.exit.err).body).1;
    }
  }

  /** With the guard, the route's reply is the whole response. */
  lemma HealthAnswered()
    ensures var d := ServedChecked(HealthApp, "GET", "/health", FreshResponse);
      d.escaped.None? && d.res.statusCode == 200 && d.res.body == Stringify(StatusOk)
  {
    HealthPath();
    OneEndpointRun("GET", "/health", Reply(200, StatusOk), FreshResponse);
  }

  // ---------------------------------------------------------------- the router object

  lemma PrependVisit(v: seq<nat>, c: seq<Call>, idx: nat, run: Run)
    ensures Prepend(v, c, Prepend([idx], [], run)) == Prepend(v + [idx], c, run)
  {
    assert v + ([idx] + run.visited) == (v + [idx]) + run.visited;
    assert c + ([] + run.calls) == c + run.calls;
  }

  lemma PrependCalls(v: seq<nat>, c: seq<Call>, cs: seq<Call>, run: Run)
    ensures Prepend(v, c, Prepend([], cs, run)) == Prepend(v, c + cs, run)
  {
    assert v + ([] + run.visited) == v + run.visited;
    assert c + (cs + run.calls) == (c + cs) + run.calls;
  }

  /** One handler's writes and what it does next, on the response object. */
  method Apply(res: Response, reply: Option<Reply>, after: Outcome, guarded: bool)
    returns (halt: bool, err: Option<Error>, guarded': bool)
    modifies res
    ensures Perform(old(res.Value()), reply, after, guarded)
      == if halt then Halt(res.Value()) else Proceed(err, res.Value(), guarded')
  {
    var ok := true;
    if reply.Some? {
      ok := res.Reply(reply.value.status, reply.value.body);
    }
    if !ok {
      return false, Some(HeadersSent), guarded;
    }
    match after
    case Stop => halt, err, guarded' := true, None, guarded;
    case Advance => halt, err, guarded' := false, None, true;
    case AdvanceErr(e) => halt, err, guarded' := false, Some(e), true;
    case Throw(e) => halt, err, guarded' := false, Some(e), guarded;
  }

  /** The `next` closure of one `handle` call: the cursor walks the stack once. */
  method RunRouter(rt: Router, req: Request, res: Response, guarded0: bool)
    returns (exit: Exit, ghost visited: seq<nat>, ghost calls: seq<Call>)
    modifies req, res
    ensures Next(rt, 0, None, old(req.Value()), old(res.Value()), guarded0)
      == Run(exit, req.Value(), res.Value(), visited, calls)
    decreases rt, 2
  {
    var idx := 0;
    var err: Option<Error> := None;
    var guarded := guarded0;
    visited, calls := [], [];
    ghost var total := Next(rt, 0, None, req.Value(), res.Value(), guarded0);
    PrependEmpty(total);
    while idx < |rt.layers|
      invariant idx <= |rt.layers|
      invariant total == Prepend(visited, calls, Next(rt, idx, err, req.Value(), res.Value(), guarded))
      decreases |rt.layers| - idx
    {
      ghost var v0, c0 := visited, calls;
      ghost var req0, res0, g0 := req.Value(), res.Value(), guarded;
      var layer := rt.layers[idx];
      var enters, base := Enters(layer, req.Value()), BaseOf(layer);
      NextAt(rt, idx, err, req0, res0, g0);
      visited := visited + [idx];
      if enters {
        ghost var entered := Steps(rt, idx, 0, req0.url, req0.path, err, Enter(req0, base), res0, g0);
        PrependVisit(v0, c0, idx, entered);
        var halted, e, g;
        ghost var cs;
        halted, e, g, cs := RunLayer(rt, idx, base, err, req, res, guarded);
        calls := calls + cs;
        if halted {
          exit := Stopped;
          PrependRun(v0 + [idx], c0, Stopped, req.Value(), res.Value(), cs);
          return;
        }
        PrependCalls(v0 + [idx], c0, cs, Next(rt, idx + 1, e, req.Value(), res.Value(), g));
        err, guarded := e, g;
      } else {
        PrependVisit(v0, c0, idx, Next(rt, idx + 1, err, req.Value(), res.Value(), guarded));
      }
      idx := idx + 1;
    }
    exit := Out(err, guarded);
    PrependRun(visited, calls, exit, req.Value(), res.Value(), []);
  }

  lemma PrependEmpty(run: Run)
    ensures Prepend([], [], run) == run
  {
    assert [] + run.visited == run.visited && [] + run.calls == run.calls;
  }

  lemma PrependRun(v: seq<nat>, c: seq<Call>, exit: Exit, req: ReqState, res: ResState, cs: seq<Call>)
    ensures Prepend(v, c, Run(exit, req, res, [], cs)) == Run(exit, req, res, v, c + cs)
  {
    assert v + [] == v;
  }

  /** One turn of `next` with the cursor inside the stack. */
  lemma NextAt(rt: Router, idx: nat, err: Option<Error>, req: ReqState, res: ResState, guarded: bool)
    requires idx < |rt.layers|
    ensures Next(rt, idx, err, req, res, guarded) == Prepend([idx], [],
      if Enters(rt.layers[idx], req)
      then Steps(rt, idx, 0, req.url, req.path, err, Enter(req, BaseOf(rt.layers[idx])), res, guarded)
      else Next(rt, idx + 1, err, req, res, guarded))
  {
  }

  /** `runHandlers`: strip the base path, run the `step` chain, restore and fall through. */
  method RunLayer(rt: Router, idx: nat, base: string, err0: Option<Error>, req: Request, res: Response,
                  guarded0: bool)
    returns (halted: bool, err: Option<Error>, guarded: bool, ghost calls: seq<Call>)
    requires idx < |rt.layers|
    modifies req, res
    ensures Steps(rt, idx, 0, old(req.url), old(req.path), err0, Enter(old(req.Value()), base),
                  old(res.Value()), guarded0)
      == if halted then Run(Stopped, req.Value(), res.Value(), [], calls)
         else Prepend([], calls, Next(rt, idx + 1, err, req.Value(), res.Value(), guarded))
    decreases rt, 1
  {
    var handlers := rt.layers[idx].handlers;
    var origUrl, origPath := req.url, req.path;
    if base != "" && MatchPath(origPath, base) {
      req.url := SliceOr(origUrl, |base|);
      req.path := SliceOr(origPath, |base|);
    }
    var i := 0;
    err, guarded, calls := err0, guarded0, [];
    ghost var total := Steps(rt, idx, 0, origUrl, origPath, err0, req.Value(), res.Value(), guarded0);
    PrependEmpty(total);
    while i < |handlers|
      invariant i <= |handlers|
      invariant total == Prepend([], calls, Steps(rt, idx, i, origUrl, origPath, err, req.Value(), res.Value(), guarded))
      decreases |handlers| - i
    {
      ghost var c0 := calls;
      var halt, e, g;
      ghost var cs;
      halt, e, g, cs := RunHandler(rt, idx, i, origUrl, origPath, err, req, res, guarded);
      calls := calls + cs;
      if halt {
        PrependRun([], c0, Stopped, req.Value(), res.Value(), cs);
        return true, err, guarded, calls;
      }
      PrependCalls([], c0, cs, Steps(rt, idx, i + 1, origUrl, origPath, e, req.Value(), res.Value(), g));
      err, guarded := e, g;
      i := i + 1;
    }
    req.url, req.path := origUrl, origPath;
    halted := false;
  }

  /** One call of `step(err)` with handler `i` next: skip it, or run it. */
  method RunHandler(rt: Router, idx: nat, i: nat, origUrl: string, origPath: string, err0: Option<Error>,
                    req: Request, res: Response, guarded0: bool)
    returns (halted: bool, err: Option<Error>, guarded: bool, ghost calls: seq<Call>)
    requires idx < |rt.layers| && i < |rt.layers[idx].handlers|
    modifies req, res
    ensures Steps(rt, idx, i, origUrl, origPath, err0, old(req.Value()), old(res.Value()), guarded0)
      == if halted then Run(Stopped, req.Value(), res.Value(), [], calls)
         else Prepend([], calls, Steps(rt, idx, i + 1, origUrl, origPath, err, req.Value(), res.Value(), guarded))
    decreases rt, 0
  {
    var handlers := rt.layers[idx].handlers;
    var h := handlers[i];
    ghost var call := Call(h, err0, req.path);
    err := err0;
    if err0.Some? && !h.ErrorAware? {
      guarded, calls := true, [];
      PrependEmpty(Steps(rt, idx, i + 1, origUrl, origPath, err, req.Value(), res.Value(), guarded));
    } else if err0.None? && h.ErrorAware? {
      guarded, calls := true, [];
      PrependEmpty(Steps(rt, idx, i + 1, origUrl, origPath, err, req.Value(), res.Value(), guarded));
    } else if h.Mounted? {
      assert rt.layers[idx] in rt.layers && h in handlers;
      req.path := Pathname(req.url);
      var exit;
      ghost var v, cs;
      exit, v, cs := RunRouter(h.router, req, res, true);
      calls := [call] + cs;
      if exit.Stopped? {
        assert calls + [] == calls;
        return true, err, guarded0, calls;
      }
      err, guarded := exit.err, exit.guarded;
    } else {
      var after := if h.Endpoint? then EndpointAfter(h.fails) else h.after;
      var halt;
      halt, err, guarded := Apply(res, h.reply, after, guarded0);
      calls := [call];
      if halt {
        assert calls + [] == calls;
        return true, err0, guarded0, calls;
      }
    }
    halted := false;
  }

  /** An application: `express()` or `express.Router()`. */
  class App {
    var layers: seq<Layer>

    constructor ()
      ensures layers == []
    {
      layers := [];
    }

    function Value(): Router
      reads this
    {
      Router(layers)
    }

    /** `app.use(prefix, ...handlers)`. */
    method Use(prefix: string, handlers: seq<Handler>)
      modifies this
      ensures layers == old(layers) + [Layer.Use(prefix, handlers)]
    {
      layers := layers + [Layer.Use(prefix, handlers)];
    }

    /** `app.use(handler, ...handlers)`: with no prefix the layer is mounted at `/`. */
    method UseRoot(handlers: seq<Handler>)
      modifies this
      ensures layers == old(layers) + [Layer.Use("/", handlers)]
    {
      layers := layers + [Layer.Use("/", handlers)];
    }

    /** `app.get(path, ...handlers)`. */
    method Get(path: string, handlers: seq<Handler>)
      modifies this
      ensures layers == old(layers) + [Route("GET", path, handlers)]
    {
      layers := layers + [Route("GET", path, handlers)];
    }

    /** `app.post(path, ...handlers)`. */
    method Post(path: string, handlers: seq<Handler>)
      modifies this
      ensures layers == old(layers) + [Route("POST", path, handlers)]
    {
      layers := layers + [Route("POST", path, handlers)];
    }

    /** `handle(app, req, res)` as the server calls it; returns the error that escapes. */
    method Handle(req: Request, res: Response) returns (escaped: Option<Error>)
      modifies req, res
      ensures var d := Served(Value(), old(req.verb), old(req.url), old(res.Value()));
        req.Value() == d.req && res.Value() == d.res && escaped == d.escaped
    {
      req.path := Pathname(req.url);
      var exit;
      ghost var v, cs;
      exit, v, cs := RunRouter(Router(layers), req, res, false);
      escaped := None;
      if exit.Out? {
        var reply := DefaultReply(exit.err);
        var ok := res.Reply(reply.status, reply.body);
        if !ok {
          if exit.guarded {
            res.Status(500);
          }
          escaped := Some(HeadersSent);
        }
      }
    }
  }
}
