# Sunny — a verified model of the SunSweeper chat and booking back ends

This project models the server side of Sunny, the SunSweeper solar-panel
cleaning assistant. It covers:

- **The local Express replacement.** This is the middleware stack and router in
  `backend/local_modules/express`: path matching, `use`/`get`/`post`
  registration, the `next(err)` discipline, arity-based error handlers, the
  default 404/500 writer, and the `res.status/set/json/send/cookie`
  helpers. The stack is assembled by `backend/server.js`.
- **The local middleware packages.** These are `cors`, `cookie-parser` and
  `dotenv`, together with the session middleware (an in-memory store with a
  four-hour expiry and a `sunny_session` cookie).
- **The Server-Sent Events helpers and the OpenAI client.** The model covers
  reading the API key and the model name, extracting the completion text, and
  decoding an SSE token stream chunk by chunk.
- **The Express chat route.** This covers validation, the 20-message history
  window, streamed and non-streamed answers, and how history is stored.
- **The two serverless chat handlers.** `frontend/api/chat.js` is the site
  widget's handler and `api/chat.js` is the standalone one. Each detects
  intent, extracts the panel count and city, builds the quote-service URL,
  and either forwards to the quote service or falls back to OpenAI.
- **The booking handler `frontend/api/book.js`.** It lays out the booking
  e-mail, picks the recipient and checks for the Resend key.

JSON values are a `Json` datatype with integer numbers. `JSON.stringify` is
`Json.Stringify`, and a hand-written parser `JsonParser.Parse` is proved to
invert it. `encodeURIComponent`/`decodeURIComponent` are modelled over UTF-8
and proved to round-trip. HTTP requests and responses are classes whose
fields the handlers update: `Http.Request` and `Http.Response`, with a value
view `ReqState`/`ResState`. The router's control flow is a pair of mutually
recursive functions, `Dispatcher.Next` and `Dispatcher.Steps`. Methods
`RunRouter`/`RunLayer`/`RunHandler` mutate the request and response and are
proved to agree with those functions.

Things that happen outside the program become parameters. These include
the clock, `crypto.randomUUID`, `process.env`, the `.env` file contents,
network calls to OpenAI, the quote service and Resend, and the regular
expressions that scan a chat message.

## Model

| member | source | states |
|---|---|---|
| Dispatcher.MatchRoot | backend/local_modules/express/index.js:52-53 | a "/" or "" mount matches exactly the paths that start with "/" |
| Dispatcher.MatchOther | backend/local_modules/express/index.js:52-55 | any other mount matches the path itself or a path continuing it with "/" |
| Dispatcher.NoPartialSegment | backend/local_modules/express/index.js:54 | "/api/chatx" does not match "/api/chat" but "/api/chat/x" does |
| Dispatcher.MatchPath | backend/local_modules/express/index.js:52-55 | matchPath(target, prefix) as written; what it matches is stated by MatchRoot, MatchOther and NoPartialSegment |
| Dispatcher.PathPart | backend/local_modules/express/index.js:87-88 | the pathname is the longest prefix of the URL without "?" or "#" |
| Dispatcher.Pathname | backend/local_modules/express/index.js:87-88 | the path used for routing is never empty, has no query or fragment, and is "/" or a prefix of the URL |
| Dispatcher.EnterStrips | backend/local_modules/express/index.js:131-134 | entering a mounted layer removes the mount prefix and leaves "/" when nothing remains; the method is kept |
| Dispatcher.RootMountDropsSlash | backend/local_modules/express/index.js:131-133 | a "/" mount turns "/health" into "health" inside the layer |
| Dispatcher.Enter | backend/local_modules/express/index.js:131-134 | the request as runHandlers enters a layer whose truthy base matches: url and path lose as many characters as the base has, and become "/" when nothing remains; stated by EnterStrips and RootMountDropsSlash |
| Dispatcher.Perform | backend/local_modules/express/index.js:144-166 | a handler halts the chain iff it neither calls next nor throws and its reply writes; it proceeds without an error exactly when next() is called and the reply writes; the run is marked guarded afterwards iff it was before, or the reply wrote and the handler called next, with or without an error |
| Dispatcher.EndpointAdvances | backend/local_modules/express/index.js:160-162 | an arity-2 endpoint always falls through to the next layer, carrying an error iff it threw or its reply failed |
| Dispatcher.DefaultReplyCases | backend/local_modules/express/index.js:97-104 | an exhausted stack answers 404 "Not Found" without an error; with an error it answers err.status, or 500 when that is missing or 0, and the error message, or "Internal Server Error" when the message is empty |
| Dispatcher.FinishReplies | backend/local_modules/express/index.js:97-104 | with headers unsent, the final writer sends exactly the default reply as JSON and raises nothing |
| Dispatcher.FinishEscapes | backend/local_modules/express/index.js:97-104 | with headers already sent, the final writer's setHeader throws; the error escapes and the body and headers are unchanged |
| Dispatcher.DefaultReply | backend/local_modules/express/index.js:97-104 | the reply written at the end of the stack; its status and message are stated by DefaultReplyCases |
| Dispatcher.Finish | backend/local_modules/express/index.js:97-104 | the end-of-stack writer: it throws once the headers are out, and each enclosing catch sets status 500 before the next throw; stated by FinishReplies and FinishEscapes |
| Dispatcher.NextVisited | backend/local_modules/express/index.js:91-121 | the layers a router run visits are strictly ascending indices within the stack |
| Dispatcher.StepsVisited | backend/local_modules/express/index.js:136-170 | the layers visited after a layer's handlers are strictly ascending and lie after that layer |
| Dispatcher.NextDisciplined | backend/local_modules/express/index.js:94-121 | along a run, an error is only given to error handlers and a clean chain only to ordinary ones |
| Dispatcher.StepsDisciplined | backend/local_modules/express/index.js:145-152 | the same discipline holds inside one layer's handler chain |
| Dispatcher.NextRestores | backend/local_modules/express/index.js:94-121 | leaving a router keeps the method, and a run that falls out of the stack hands back the request it received |
| Dispatcher.StepsRestores | backend/local_modules/express/index.js:136-142 | leaving a layer restores the original url and path |
| Dispatcher.Next | backend/local_modules/express/index.js:94-121 | next(err) at a cursor: past the last layer the run leaves with the error; a layer that matches runs its handlers, and any other is skipped; stated by NextVisited, NextDisciplined, NextRestores, RouteSkip and UseSkip, and RunRouter is proved to compute it |
| Dispatcher.Steps | backend/local_modules/express/index.js:136-170 | step(err) inside one layer: errors reach only error handlers and clean calls only ordinary ones, a mounted router runs its own stack, and leaving the layer restores url and path; stated by StepsVisited, StepsDisciplined, StepsRestores and ThrowBecomesError, and RunLayer and RunHandler are proved to compute it |
| Dispatcher.Served | backend/local_modules/express/index.js:85-124 | handle(router, req, res) without out: the run from the first layer, then the end-of-stack writer; OneEndpointEscapes and HealthEscapes are stated about it, and App.Handle is proved to compute it |
| Dispatcher.RouteSkip | backend/local_modules/express/index.js:113-115 | a route whose method or exact path differs is skipped without calling anything |
| Dispatcher.UseSkip | backend/local_modules/express/index.js:107-108 | a use-layer whose prefix does not match is skipped without calling anything |
| Dispatcher.ThrowBecomesError | backend/local_modules/express/index.js:164-166 | a middleware that throws passes its error to the rest of the chain |
| Dispatcher.OneEndpointRun | backend/local_modules/express/index.js:158-163 | a one-route app calls its endpoint once, writes its JSON reply and then falls out of the stack without an error |
| Dispatcher.OneEndpointEscapes | backend/local_modules/express/index.js:97-104 | after such an endpoint has replied, the fall-through writer sets status 500 and its error escapes handle |
| Dispatcher.HealthEscapes | backend/server.js:25-27 | GET /health sends {"status":"ok"}; the response then carries status 500 and the error escapes |
| Dispatcher.ServedCheckedSafe | backend/local_modules/express/index.js:97-104 | with the headers-sent check, nothing escapes; a written reply is kept, and an unanswered run gets the default status |
| Dispatcher.HealthAnswered | backend/server.js:25-27 | with that check, GET /health answers 200 {"status":"ok"} and nothing escapes |
| Dispatcher.Apply | backend/local_modules/express/index.js:144-166 | running one handler on the live response leaves exactly the state and decision that Perform computes |
| Dispatcher.RunRouter | backend/local_modules/express/index.js:91-123 | the imperative dispatch loop ends in the state, exit, visited layers and calls that Next computes |
| Dispatcher.NextAt | backend/local_modules/express/index.js:94-121 | one step of the dispatcher enters the layer at idx if it matches and otherwise moves on to idx + 1 |
| Dispatcher.RunLayer | backend/local_modules/express/index.js:126-170 | running one layer's handlers agrees with Steps from handler 0 |
| Dispatcher.RunHandler | backend/local_modules/express/index.js:136-167 | running one handler and continuing agrees with Steps at that handler |
| Dispatcher.App.constructor | backend/local_modules/express/index.js:57-58 | a new app has an empty stack |
| Dispatcher.App.Use | backend/local_modules/express/index.js:62-69 | use appends one prefixed layer and changes nothing else |
| Dispatcher.App.UseRoot | backend/local_modules/express/index.js:62-67 | use without a path appends a "/" layer |
| Dispatcher.App.Get | backend/local_modules/express/index.js:71-76 | get appends a GET route |
| Dispatcher.App.Post | backend/local_modules/express/index.js:71-76 | post appends a POST route |
| Dispatcher.App.Handle | backend/local_modules/express/index.js:85-124 | handling a request leaves the request, the response and the escaped error as the Served model says |
| Http.Response.constructor | backend/local_modules/express/index.js:4-6 | a fresh response has status 200, no headers, an empty body and is not finished |
| Http.Response.Status | backend/local_modules/express/index.js:8-11 | status sets the code and nothing else |
| Http.Response.SetHeader | backend/local_modules/express/index.js:13-16 | setting a header succeeds iff headers are unsent, and then adds exactly that header |
| Http.Response.Json | backend/local_modules/express/index.js:18-21 | json writes the content type and the stringified payload under the current status |
| Http.Response.Reply | backend/local_modules/express/index.js:8-21 | status(code).json(payload) behaves as JsonReply with that code |
| Http.JsonReplyWrites | backend/local_modules/express/index.js:18-21 | a JSON reply on an unsent response sets the code and the JSON content type, finishes, and appends a body that parses back to the payload |
| Http.JsonReply | backend/local_modules/express/index.js:8-21 | status(code).json(payload): the code is set, and on an unsent response the JSON content type and the stringified payload end it, while on a sent one setHeader throws; stated by JsonReplyWrites, and Response.Reply is proved to perform it |
| Http.WithHeader | backend/local_modules/express/index.js:19 | setHeader stores the value under the lowercased name, replacing any earlier one; Response.SetHeader and Response.Cookie are proved to perform it |
| Http.CookieString | backend/local_modules/express/index.js:33-39 | the Set-Cookie text of res.cookie; stated by CookieHead and CookieAllOptions |
| Http.Response.Send | backend/local_modules/express/index.js:23-30 | send ends with a string as it is, and with objects, arrays and null as JSON; 0, false and undefined end the response with no body; a truthy number or boolean is rejected unless the response has already ended, and objects are rejected once headers are sent |
| Http.Ended | backend/local_modules/express/index.js:28 | ending appends the chunk once and marks the response finished; ending twice changes nothing |
| Http.Response.End | backend/local_modules/express/index.js:28 | end updates the live response as Ended says |
| Http.Response.Write | backend/utils/sse.js:9 | write appends the chunk and marks the headers sent |
| Http.Response.FlushHeaders | backend/utils/sse.js:5 | flushing marks headers sent and changes nothing else |
| Http.Response.Cookie | backend/local_modules/express/index.js:32-47 | cookie sets Set-Cookie iff headers are unsent, appending to any existing values |
| Http.AppendSetCookie | backend/local_modules/express/index.js:40-45 | the new Set-Cookie value lists the old values followed by the new cookie |
| Http.CookieHead | backend/local_modules/express/index.js:33-39 | a cookie string starts with name=encodeURIComponent(value), followed by nothing or by "; " |
| Http.CookieAllOptions | backend/local_modules/express/index.js:33-39 | with every option set, the attributes appear in the order Max-Age, HttpOnly, SameSite, Secure, Path, joined by "; " |
| Http.AllAttributes | backend/local_modules/express/index.js:34-38 | the attribute list for a full option set |
| Http.MaxAgeSeconds | backend/local_modules/express/index.js:34 | Max-Age is the floor of maxAge / 1000 |
| Http.SessionRecord.constructor | backend/middleware/session.js:10 | a new session has the given id and creation time and an empty history |
| BodyParser.ParseBody | backend/local_modules/express/index.js:175-194 | no chunks give {}; the body fails iff the concatenated text does not parse, with the invalid-JSON error; otherwise it is the parsed value |
| BodyParser.ParseBodyStringify | backend/local_modules/express/index.js:185 | a body holding the stringified value parses back to it |
| BodyParser.EmptyChunkInvalid | backend/local_modules/express/index.js:180-191 | a single empty chunk is invalid JSON, unlike no chunk at all |
| BodyParser.Middleware | backend/local_modules/express/index.js:175-194 | the middleware sets req.body to the parse or passes the error to next, and touches nothing else |
| JsonParser.ParseStringify | backend/local_modules/express/index.js:185 | JSON.parse(JSON.stringify(v)) == v for every value |
| JsonParser.ValueRoundTrip | backend/local_modules/express/index.js:185 | parsing the text of any value followed by a delimiter returns the value and the rest |
| JsonParser.Parse | backend/local_modules/express/index.js:185 | JSON.parse, with no value where a SyntaxError is thrown; ParseStringify and ValueRoundTrip state that it inverts Json.Stringify |
| Json.StringifyShape | backend/utils/sse.js:9 | stringified JSON is one line and starts and ends with a value character |
| Json.StringifyNotDone | backend/openaiClient.js:74-76 | no stringified value is the text "[DONE]" |
| Json.Lookup | frontend/api/chat.js:140 | a field lookup finds a value iff some field has that key, and the value is the one stored in the last field with that key |
| Json.Or | frontend/api/chat.js:80 | a \|\| b is truthy iff either is, and is a when a is truthy |
| Json.Truthy | frontend/api/book.js:37 | JavaScript truthiness: undefined, null, false, 0 and "" are falsy; stated by Or, FormatValueCases and the handlers' lemmas |
| Json.Get | api/chat.js:25 | v?.key: the last field with that key of an object, and undefined for every other value; stated through Lookup |
| Json.Stringify | backend/local_modules/express/index.js:18-21 | JSON.stringify; StringifyShape, StringifyNotDone and JsonParser.ParseStringify state its shape and that JSON.parse reads it back |
| Json.ValueString | frontend/api/chat.js:43 | String(v) for a value that converts; an array is joined with commas and null elements print as nothing; Serverless.NormalizeKinds and Booking.FormatValueCases state what it gives |
| Json.Unconvertible | frontend/api/chat.js:43 | String(v) throws for an object with its own toString and for an array holding one at any depth; Serverless.NormalizeKinds, SiteChat.UnconvertibleCount, ApiChat.UnconvertibleCount and Booking.UnconvertibleField state what that does to each handler |
| Uri.DecodeEncode | backend/local_modules/cookie-parser/index.js:10 | decodeURIComponent(encodeURIComponent(s)) == s |
| Uri.EncodeAlphabet | backend/local_modules/express/index.js:33 | encoded text has only unreserved characters and "%" |
| Uri.LonePercentFails | backend/local_modules/cookie-parser/index.js:10 | a "%" not followed by a hex digit fails to decode |
| Uri.OverlongFails | backend/local_modules/cookie-parser/index.js:10 | the overlong "%C0%80" is rejected |
| Uri.Encode | backend/local_modules/express/index.js:33 | encodeURIComponent is never shorter than its input; EncodeAlphabet and DecodeEncode state its alphabet and that Decode inverts it |
| Uri.Decode | backend/local_modules/cookie-parser/index.js:10 | decodeURIComponent, with an error where a URIError is thrown; DecodeEncode, LonePercentFails and OverlongFails state it |
| Text.TrimSpec | backend/local_modules/cookie-parser/index.js:8-9 | trim removes exactly the leading and trailing white space |
| Text.TrimTrim | backend/routes/chat.js:12 | trimming is idempotent |
| Text.IndexOf | backend/local_modules/cookie-parser/index.js:6 | indexOf returns the first occurrence or -1 when there is none |
| Text.JoinSplit | backend/local_modules/dotenv/index.js:5 | joining the pieces of a split gives back the text |
| Text.SplitJoin | backend/local_modules/dotenv/index.js:5 | splitting at a separator splits each side independently |
| Text.SplitJoined | frontend/api/book.js:105 | splitting lines without separators after joining them gives the lines back |
| Text.Lower | frontend/api/chat.js:100 | lower-casing is character by character and keeps the length |
| CookieParser.Parse | backend/local_modules/cookie-parser/index.js:1-13 | the imperative loop computes ParseCookies |
| CookieParser.ParseJoined | backend/local_modules/cookie-parser/index.js:4 | h1;h2 parses as h1's cookies overridden by h2's, and fails if either part fails |
| CookieParser.OnePair | backend/local_modules/cookie-parser/index.js:6-10 | one name=value pair gives the trimmed name bound to the decoded trimmed value; "__proto__" is dropped; a decoding failure is an error |
| CookieParser.FirstEquals | backend/local_modules/cookie-parser/index.js:6-7 | the pair splits at its first "=" |
| CookieParser.SinglePair | backend/local_modules/cookie-parser/index.js:4 | a header without ";" is one pair |
| CookieParser.CookieRoundTrip | backend/local_modules/cookie-parser/index.js:1-13 | a cookie written as name=encodeURIComponent(v) reads back as v |
| CookieParser.EmptyHeader | backend/local_modules/cookie-parser/index.js:3 | an empty header gives no cookies |
| CookieParser.AddPairsAppend | backend/local_modules/cookie-parser/index.js:5-11 | handling pairs a + b is handling a, then b |
| CookieParser.Middleware | backend/local_modules/cookie-parser/index.js:15-20 | req.cookies becomes the parse of the cookie header, or the URIError is thrown; nothing else changes |
| CookieParser.ParseCookies | backend/local_modules/cookie-parser/index.js:1-13 | parseCookies(header): the pairs between ";" added in turn; stated by ParseJoined, OnePair, SinglePair, EmptyHeader and CookieRoundTrip, and Parse is proved to compute it |
| Session.ExpiryWindow | backend/middleware/session.js:18 | a session is alive up to createdAt + 14400000 ms, and once expired stays expired |
| Session.Expired | backend/middleware/session.js:18 | a session created at createdAt has expired at now once createdAt + 14400000 < now; stated by ExpiryWindow, Lookup and Prune |
| Session.Lookup | backend/middleware/session.js:15-24 | a lookup finds the session iff it is stored and not expired, and then returns it |
| Session.Prune | backend/middleware/session.js:19-21 | the only entry a lookup may remove is the expired session looked up |
| Session.LookupAfterPrune | backend/middleware/session.js:15-24 | pruning does not change a lookup, and pruning twice is pruning once |
| Session.LookupStored | backend/middleware/session.js:7-13 | a session just stored is found while within its lifetime |
| Session.SessionStore.constructor | backend/middleware/session.js:5 | the store starts empty |
| Session.SessionStore.Create | backend/middleware/session.js:7-13 | create stores a fresh session with the given id and time and an empty history |
| Session.SessionStore.Get | backend/middleware/session.js:15-24 | get returns Lookup and leaves the store as Prune says |
| Session.DecimalSeconds | backend/middleware/session.js:33-39 | the four-hour lifetime is Max-Age=14400 |
| Session.SessionCookieAttributes | backend/middleware/session.js:33-39 | the session cookie carries Max-Age=14400, HttpOnly, SameSite=Lax, Secure only in production, and Path=/ |
| Session.Middleware | backend/middleware/session.js:26-44 | a live session is reused with nothing written; otherwise a fresh one is stored under the new id and its cookie is set |
| Sse.StreamHeaders | backend/utils/sse.js:2-4 | the stream head sets exactly the three event-stream headers and flushes them |
| Sse.StreamHead | backend/utils/sse.js:1-6 | the response after initSSE on unsent headers: the three headers set and flushed; stated by StreamHeaders and Init |
| Sse.Init | backend/utils/sse.js:1-6 | init writes the stream head iff headers are unsent |
| Sse.FrameShape | backend/utils/sse.js:9 | an event frame is one line followed by a blank line |
| Sse.Frame | backend/utils/sse.js:9 | the text sendEvent writes for data; stated by FrameShape and OpenAi.SentFrame, and SendEvent is proved to write it |
| Sse.SendEvent | backend/utils/sse.js:8-10 | sendEvent appends exactly one frame |
| Sse.Close | backend/utils/sse.js:12-14 | close ends the response |
| OpenAi.ApiKey | backend/openaiClient.js:3-9 | the key is found iff OPENAI_API_KEY is set and non-empty; otherwise the missing-key error |
| OpenAi.Model | backend/openaiClient.js:11-13 | the model is OPENAI_MODEL or the default, and never empty |
| OpenAi.CompletionText | backend/openaiClient.js:35 | an extracted completion is trimmed |
| OpenAi.CompletionOfMessage | backend/openaiClient.js:35 | the first choice's message content, trimmed, is the answer |
| OpenAi.FramesOf | backend/openaiClient.js:67-88 | splitting the buffer at blank lines leaves a remainder that holds no blank line |
| OpenAi.FramesStep | backend/openaiClient.js:67-70 | the first frame is the text before the first blank line |
| OpenAi.EventOf | backend/openaiClient.js:72-85 | a token event always carries a truthy token |
| OpenAi.DoneEvent | backend/openaiClient.js:74-76 | "data: [DONE]" and "data:[DONE]" end the stream |
| OpenAi.DataPayload | backend/openaiClient.js:72-73 | the text after "data: " is the payload |
| OpenAi.JsonEvent | backend/openaiClient.js:77-85 | a JSON frame yields its delta content when that is truthy, and is skipped otherwise |
| OpenAi.DeltaEvent | backend/openaiClient.js:77-85 | a delta frame with text t yields t, and the empty delta is skipped |
| OpenAi.TokensStep | backend/openaiClient.js:72-85 | Done stops the stream, Skip drops the frame, and a token is yielded in order |
| OpenAi.TokensDone | backend/openaiClient.js:74-76 | nothing after [DONE] is yielded |
| OpenAi.StreamTokensTruthy | backend/openaiClient.js:81-83 | every yielded token is truthy |
| OpenAi.SentFrame | backend/utils/sse.js:9 | a frame written by sendEvent reads back as its JSON payload |
| OpenAi.Step | backend/openaiClient.js:69-86 | one frame cut at the first blank line and handled: the end marker leaves no tokens, a frame that yields nothing leaves the rest's tokens, and a token goes in front of them |
| OpenAi.Drain | backend/openaiClient.js:67-89 | the inner loop yields the complete frames' tokens in order and keeps the rest for the next chunk, unless it stops at [DONE] |
| OpenAi.Decode | backend/openaiClient.js:38-91 | reading a stream chunk by chunk yields exactly the tokens of the whole text |
| OpenAi.StreamTokens | backend/openaiClient.js:38-91 | the tokens a whole stream body yields; StreamTokensTruthy states them, and Decode is proved to yield them chunk by chunk |
| Dotenv.Parse | backend/local_modules/dotenv/index.js:4-17 | the line loop computes ParseEnv |
| Dotenv.ParseJoined | backend/local_modules/dotenv/index.js:5-15 | the lines after a newline override the ones before |
| Dotenv.SingleLine | backend/local_modules/dotenv/index.js:5 | one line is one entry |
| Dotenv.CommentLine | backend/local_modules/dotenv/index.js:8-9 | blank and "#" lines are ignored wherever they are |
| Dotenv.EmptyBetween | backend/local_modules/dotenv/index.js:8-11 | a line giving no entry changes nothing |
| Dotenv.DefinitionEntry | backend/local_modules/dotenv/index.js:10-14 | KEY=value gives KEY bound to the unquoted value |
| Dotenv.DefinitionLine | backend/local_modules/dotenv/index.js:10-14 | a one-line file defines exactly that key |
| Dotenv.Unquote | backend/local_modules/dotenv/index.js:14 | unquoting removes at most one character at each end |
| Dotenv.UnquoteQuoted | backend/local_modules/dotenv/index.js:14 | a quoted value loses its quotes |
| Dotenv.UnquotePlain | backend/local_modules/dotenv/index.js:14 | an unquoted value is unchanged |
| Dotenv.MergeEnv | backend/local_modules/dotenv/index.js:23-27 | the process keeps its own variables and gains the parsed ones it lacks |
| Dotenv.MergeIsUnion | backend/local_modules/dotenv/index.js:23-27 | merging is a union in which the existing variables win |
| Dotenv.MergeIdempotent | backend/local_modules/dotenv/index.js:19-29 | loading the same file twice is loading it once |
| Dotenv.MergeStep | backend/local_modules/dotenv/index.js:24-26 | one loop step adds the key only if it is undefined |
| Dotenv.ProcessEnv.constructor | backend/local_modules/dotenv/index.js:24 | a process starts with the given variables |
| Dotenv.ProcessEnv.Config | backend/local_modules/dotenv/index.js:19-29 | without a file nothing changes; otherwise the parse is returned and merged |
| Dotenv.ParseEnv | backend/local_modules/dotenv/index.js:4-17 | parse(content); stated by ParseJoined, SingleLine, CommentLine, EmptyBetween, DefinitionEntry and DefinitionLine, and Parse is proved to compute it |
| Cors.AllowedOrigin | backend/local_modules/cors/index.js:4-5 | with origin true, the allowed origin is the request origin, or "*" when there is none |
| Cors.CorsMapContents | backend/local_modules/cors/index.js:6-13 | exactly the four CORS headers are added, with their fixed values, an Allow-Origin iff one is allowed, and credentials iff requested and the origin is not "*" |
| Cors.NoCredentialedWildcard | backend/local_modules/cors/index.js:11-13 | credentials are never allowed together with the "*" origin |
| Cors.PreflightAnswered | backend/local_modules/cors/index.js:15-21 | OPTIONS is answered 204 with an empty body and stops the chain; other methods continue unchanged |
| Cors.LowerNames | backend/local_modules/cors/index.js:7-12 | the mixed-case header names are stored lower-cased |
| Cors.SetInTurn | backend/local_modules/cors/index.js:6-13 | the four setHeader calls in turn give the CORS map |
| Cors.Middleware | backend/local_modules/cors/index.js:3-22 | the middleware updates the response as Apply says |
| Cors.ServerOrigins | backend/server.js:13-18 | the server always allows an origin, reflects the request's origin when none is configured, and sends credentials iff one is |
| Cors.CorsMap | backend/local_modules/cors/index.js:6-13 | the headers the middleware adds; stated by CorsMapContents, NoCredentialedWildcard, LowerNames, SetInTurn and ServerOrigins |
| Cors.Apply | backend/local_modules/cors/index.js:3-22 | the middleware's response and outcome; stated by PreflightAnswered, and Middleware is proved to compute it |
| ChatRoute.MessageOf | backend/routes/chat.js:11-14 | the message is accepted iff it is a string that is not blank |
| ChatRoute.TrimHistory | backend/routes/chat.js:21-22 | the kept history is the last at most 20 messages, ten exchanges |
| ChatRoute.PromptShape | backend/routes/chat.js:24-28 | the prompt is the system prompt, the kept turns, then the trimmed user message |
| ChatRoute.ExchangeBound | backend/routes/chat.js:42-52 | the stored history ends with the message and the reply and keeps at most 22 turns |
| ChatRoute.StreamSelection | backend/routes/chat.js:30 | an Accept header naming text/event-stream selects streaming; stream=false in the query without it does not |
| ChatRoute.Refusals | backend/routes/chat.js:11-19 | a missing message answers 400 and a missing session 500, storing nothing |
| ChatRoute.StoredHistory | backend/routes/chat.js:16-54 | history is stored only for an accepted message in a session, and extends that session's history |
| ChatRoute.AnswerStores | backend/routes/chat.js:30-54 | each answer path stores history of that shape |
| ChatRoute.Streamed | backend/routes/chat.js:32-48 | streaming sends the token frames and a done or error frame with the event-stream type; on success it stores the joined reply and stops, on failure it passes the error on |
| ChatRoute.StreamedBody | backend/routes/chat.js:36-41 | the streamed body reads back as the token frames followed by the last frame |
| ChatRoute.ReplyOfStrings | backend/routes/chat.js:38 | the full reply is the tokens joined in order |
| ChatRoute.TokenFramesRead | backend/routes/chat.js:36-39 | the written token frames read back one frame per token |
| ChatRoute.Completed | backend/routes/chat.js:51-57 | a completion is answered 200 with {reply} and stored; a failure passes the error on, writing nothing |
| ChatRoute.SendTokens | backend/routes/chat.js:36-39 | the token loop writes one frame per token and returns the joined reply |
| ChatRoute.Stream | backend/routes/chat.js:32-48 | the streaming branch updates the response and the session as StreamEffect says |
| ChatRoute.Complete | backend/routes/chat.js:51-54 | the non-streaming branch updates the response and the session as CompleteEffect says |
| ChatRoute.Ask | backend/routes/chat.js:21-54 | answering a message updates the response and the session as Answer says |
| ChatRoute.StreamEffect | backend/routes/chat.js:32-48 | the streaming branch as a function: the stream head, one frame per token, the done or error frame and the end, storing the exchange only on success; stated by Streamed, StreamedBody and StreamStores, and Stream is proved to perform it |
| ChatRoute.CompleteEffect | backend/routes/chat.js:51-57 | the plain branch as a function: a failed completion is passed to next untouched, else {reply} is sent and the exchange stored; stated by Completed and CompleteStores, and Complete is proved to perform it |
| ChatRoute.TokenFrames | backend/routes/chat.js:36-39 | the frames written for the tokens, one {token} frame each in order; stated by TokenFramesRead and StreamedBody, and SendTokens is proved to write it |
| ChatRoute.ReplyText | backend/routes/chat.js:37 | fullReply, the tokens as strings concatenated; stated by ReplyOfStrings, and SendTokens is proved to return it |
| ChatRoute.Handle | backend/routes/chat.js:9-58 | the route handler updates the response and the session as Respond says |
| ChatRoute.Respond | backend/routes/chat.js:9-58 | the route as a function of the request, the session, the provider and the response; stated by Refusals, StoredHistory and AnswerStores, and Handle is proved to compute it |
| ChatRoute.Answer | backend/routes/chat.js:21-54 | a valid request with a session, streamed or not; stated by AnswerStores and StoredHistory, and Ask is proved to compute it |
| Serverless.ParseBody | frontend/api/chat.js:25-36 | only a string body can fail to parse, with the SyntaxError message |
| Serverless.BodyForms | frontend/api/chat.js:25-36 | objects and arrays pass through; a missing, null or boolean body is {}; a string is parsed |
| Serverless.BodyText | frontend/api/chat.js:32-33 | a stringified body parses back to its value |
| Serverless.LeadingDigits | frontend/api/chat.js:43 | the leading digits are the longest digit prefix |
| Serverless.ParseUnspaced | frontend/api/chat.js:43 | parseInt skips leading white space only |
| Serverless.ParseIntDecimal | frontend/api/chat.js:43 | parseInt reads back any integer's decimal text followed by a non-digit |
| Serverless.ParseNegative | frontend/api/chat.js:43 | parseInt reads back a negative integer |
| Serverless.ParseNatural | frontend/api/chat.js:43 | parseInt reads back a non-negative integer |
| Serverless.ParseDigits | frontend/api/chat.js:43 | parseInt of a digit string is its value |
| Serverless.ParseLeadingDigit | frontend/api/chat.js:43 | parseInt of text starting with a digit is the value of its leading digits |
| Serverless.SignedDigits | frontend/api/chat.js:43 | digits followed by a non-digit parse as their value |
| Serverless.NegatedDigits | frontend/api/chat.js:43 | a "-" before digits negates them |
| Serverless.NegatedText | frontend/api/chat.js:43 | a text starting with "-" and digits gives the negated value |
| Serverless.DigitsLead | frontend/api/chat.js:43 | the leading digits of digits followed by a non-digit are those digits |
| Serverless.NotANumber | frontend/api/chat.js:43-44 | text starting with anything but space, digit or sign is NaN |
| Serverless.ParseInt | frontend/api/chat.js:43 | Number.parseInt(s, 10); stated by ParseUnspaced, ParseIntDecimal, ParseNegative, ParseNatural, ParseDigits, ParseLeadingDigit and NotANumber |
| Serverless.NormalizePanelCount | frontend/api/chat.js:39-45 | a missing or null count gives none; String(raw) throws, with the TypeError message, exactly for a value it cannot convert |
| Serverless.NormalizeKinds | frontend/api/chat.js:39-45 | numbers pass through, numeric text is parsed, and booleans, "" and objects without their own toString give none; an object with its own toString throws |
| Serverless.BodyCountFirst | frontend/api/chat.js:47-50 | a panelCount field decides the count whatever the message says |
| Serverless.MessageCount | frontend/api/chat.js:51-65 | without a field, the first pattern that matches gives the count, and none gives none |
| Serverless.ExtractPanelCount | frontend/api/chat.js:47-66 | extractPanelCount throws exactly for a body count that cannot be converted, with the TypeError message; BodyCountFirst and MessageCount state which count it gives |
| Serverless.StripEnd | frontend/api/chat.js:76 | trailing commas and whitespace are removed, and only those |
| Serverless.Collapse | frontend/api/chat.js:76 | runs of whitespace become one space |
| Serverless.CollapseLast | frontend/api/chat.js:76 | collapsing keeps a last character that is not white space |
| Serverless.TrimStartLast | frontend/api/chat.js:72 | trimming the start keeps a last character that is not white space |
| Serverless.CollapseFixed | frontend/api/chat.js:76 | collapsed text is unchanged by collapsing |
| Serverless.SanitizeCity | frontend/api/chat.js:68-77 | a city is given iff it is a non-blank string |
| Serverless.SanitizedShape | frontend/api/chat.js:68-77 | a sanitised city has single spaces and no white space or comma at its ends |
| Serverless.SanitizeIdempotent | frontend/api/chat.js:68-77 | sanitising an already sanitised city returns the same city |
| Serverless.BodyCity | frontend/api/chat.js:80 | city, else address, else location, by truthiness |
| Serverless.CityFromBody | frontend/api/chat.js:82-83 | a usable body city wins over the message |
| Serverless.CityFromMessage | frontend/api/chat.js:85-95 | otherwise the labelled pattern, then the "in …" pattern; without either there is no city |
| Serverless.CityNotText | frontend/api/chat.js:80-83 | a truthy non-string city is ignored |
| Serverless.ExtractCity | frontend/api/chat.js:79-96 | extractCity(message, body); stated by CityFromBody, CityFromMessage and CityNotText |
| Serverless.ForwardedProto | frontend/api/chat.js:123-124 | the first forwarded protocol is used |
| Serverless.Scheme | frontend/api/chat.js:123-129 | the scheme defaults to http |
| Serverless.QuoteUrl | frontend/api/chat.js:125-128 | without a host the relative quote path is used |
| Serverless.QuoteUrlParts | frontend/api/chat.js:122-130 | the URL is scheme://host/api/quote, and scheme and host can be read back from it |
| Serverless.FailedQuoteNotOk | frontend/api/chat.js:172-182 | a failed quote request never counts as ok |
| Serverless.QuoteResponse | frontend/api/chat.js:160-174 | the quote service's parsed answer, or {ok: false, error: "Quote request failed"} when the request or its JSON rejects; stated by FailedQuoteNotOk, SiteChat.QuoteUnavailable and ApiChat.Routing |
| Serverless.QuoteOk | frontend/api/chat.js:182 | quoteResponse?.ok === true: the ok field is exactly true; stated by FailedQuoteNotOk and the QuoteReplies lemmas |
| Serverless.ErrorBody | frontend/api/chat.js:135 | an error body carries the message under "error" |
| Serverless.ReplyOf | frontend/api/chat.js:190 | a reply body carries the value under "reply" |
| Serverless.TextReply | frontend/api/chat.js:154-157 | a text reply carries the string under "reply" |
| SiteChat.IntentOf | frontend/api/chat.js:99-119 | a message is relevant iff it mentions solar or panel and pricing or booking |
| SiteChat.MentionedIntent | frontend/api/chat.js:99-119 | any casing of a solar word and a pricing or booking word makes the message relevant with that kind |
| SiteChat.UnrelatedIntent | frontend/api/chat.js:100-104 | a message that mentions neither solar nor panel is irrelevant |
| SiteChat.LowerHolds | frontend/api/chat.js:100 | lower-casing keeps the lower-cased keywords inside the text |
| SiteChat.Prompt | frontend/api/chat.js:208-211 | the prompt is the system prompt and the trimmed message |
| SiteChat.Validation | frontend/api/chat.js:133-139 | non-POST answers 405; a malformed body answers 500 with the SyntaxError message |
| SiteChat.MessageChecked | frontend/api/chat.js:140-144 | a parsed body is answered 400 iff its message is not a non-blank string |
| SiteChat.AskBeforeQuoting | frontend/api/chat.js:153-158 | when the count reads as none, or reads but the city is missing or empty, the widget asks for both and calls no quote service |
| SiteChat.Quoting | frontend/api/chat.js:160-191 | with both, the answer is the quote reply to the quote service's response |
| SiteChat.QuoteUnavailable | frontend/api/chat.js:172-196 | a failed quote request gives the "no instant quote" reply |
| SiteChat.QuoteReplies | frontend/api/chat.js:182-196 | quote replies are 200 with the price, the price plus the scheduling nudge when booking, or the fallback text; the one exception is a booking nudge on a price text String cannot convert, which is 500 with the TypeError message |
| SiteChat.QuoteAnswer | frontend/api/chat.js:150-196 | the answer to a pricing question: 500 when the count throws, the question for both details when one is missing, otherwise the quote reply to the service's response; stated by AskBeforeQuoting, Quoting, QuoteUnavailable, QuoteStatus and UnconvertibleCount |
| SiteChat.QuoteReply | frontend/api/chat.js:182-196 | the reply to the quote response: the price text, with the scheduling nudge for a booking question (500 when that text cannot be converted), or the no-instant-quote text when ok is not exactly true; stated by QuoteReplies |
| SiteChat.ModelAnswer | frontend/api/chat.js:199-228 | the answer to any other question: 500 with the missing-key message, the request's error message, or the TypeError of an unreadable answer; else 200 with the trimmed content, "" when there is none; stated by Completing and ModelStatus |
| SiteChat.UnconvertibleCount | frontend/api/chat.js:138-228 | a pricing question whose body panelCount String cannot convert is answered 500 with "Cannot convert object to primitive value" |
| SiteChat.Routing | frontend/api/chat.js:147-200 | relevant messages never reach OpenAI, and irrelevant ones never reach the quote service |
| SiteChat.Completing | frontend/api/chat.js:200-224 | a missing key or a failed completion is 500 with its message; a completion is 200 with its trimmed text |
| SiteChat.Handle | frontend/api/chat.js:133-229 | the handler replies with the status and body Answer computes |
| SiteChat.Answer | frontend/api/chat.js:133-229 | the handler's reply; stated by Validation, MessageChecked, Routing, Completing and UnconvertibleCount, and Handle is proved to write it |
| ApiChat.Prompt | api/chat.js:136-140 | the prompt is the system prompt and the untrimmed message |
| ApiChat.NotPost | api/chat.js:77-80 | non-POST answers 405 "Method Not Allowed" |
| ApiChat.AllowSent | api/chat.js:78-79 | the 405 carries Allow: POST and the JSON content type |
| ApiChat.UnparsedBody | api/chat.js:82 | a malformed body fails outside the try block, leaving the response untouched |
| ApiChat.MessageChecked | api/chat.js:83-87 | a non-string or empty message answers 400 "Invalid request body"; any other 400 comes from the OpenAI status |
| ApiChat.CompletedStatus | api/chat.js:145-148 | the answer to a valid message is 400 only when OpenAI itself answers 400 |
| ApiChat.KeyFirst | api/chat.js:89-92 | a missing key answers 500 before any quote path |
| ApiChat.Routing | api/chat.js:94-143 | with a count and a city the quote reply is given and OpenAI is not called; a body count that cannot be converted is 500 "Unexpected server error" and neither service is called; otherwise the completion reply |
| ApiChat.UnconvertibleCount | api/chat.js:94-160 | with a message and a key, a body panelCount String cannot convert is answered 500 "Unexpected server error" |
| ApiChat.QuoteReplies | api/chat.js:99-127 | quote replies are 200 with the price text or the contact-the-team fallback |
| ApiChat.CompletionReplies | api/chat.js:145-160 | a rejected call is 500, a non-ok status passes the error text through, and an answer is 200 with the trimmed text or 500 when empty |
| ApiChat.QuoteReply | api/chat.js:120-126 | the reply once the quote endpoint answered: 200 with its priceText when ok is exactly true, else 200 with the contact-the-team text; stated by QuoteReplies |
| ApiChat.CompletionReply | api/chat.js:145-160 | the reply made from the completion request: 500 on a rejection or an unreadable answer, the OpenAI status with its error text on a non-ok answer, else 200 with the trimmed content or 500 when it is blank; stated by CompletionReplies and AnsweredReply |
| ApiChat.Completed | api/chat.js:94-160 | the reply to a message with a key: 500 when the body count throws, the quote reply with both details, otherwise the completion reply; stated by Routing, UnconvertibleCount, CompletedStatus and CompletionReplies |
| ApiChat.AnsweredReply | api/chat.js:150-157 | an OpenAI answer whose first choice holds content s is 200 with s trimmed, or 500 "Empty response from OpenAI" when s is blank |
| ApiChat.BlankMessage | api/chat.js:83-87 | a blank message is refused by the site handler but goes on in this one |
| ApiChat.Handle | api/chat.js:76-161 | on a fresh response the handler writes what Written says, resolves iff Answer is a reply, and otherwise rejects with the parse error |
| ApiChat.Answer | api/chat.js:76-161 | the handler's reply, or the error it rejects with; stated by NotPost, UnparsedBody, MessageChecked, KeyFirst, BlankMessage and UnconvertibleCount |
| ApiChat.Written | api/chat.js:76-80 | the response after the handler, with Allow: POST on a refused method; stated by AllowSent and UnparsedBody, and Handle is proved to write it |
| Booking.Lines | frontend/api/book.js:81-100 | the e-mail has 15 lines, starting with the heading and a blank line |
| Booking.EmailLayout | frontend/api/book.js:81-100 | each of the 13 following lines is captioned with its label in order |
| Booking.FormatValueShape | frontend/api/book.js:36-38 | a value line is "caption: " followed by the value or "Not provided" |
| Booking.PriceShape | frontend/api/book.js:17-34 | the price line is captioned "Price" |
| Booking.FormatValueCases | frontend/api/book.js:36-38 | falsy values read "Not provided"; truthy ones that String converts are shown as it shows them |
| Booking.FormatValue | frontend/api/book.js:36-38 | formatValue(label, value) for a value that converts; stated by FormatValueShape and FormatValueCases |
| Booking.FormatPrice | frontend/api/book.js:17-34 | formatPriceQuoted(priceQuoted); stated by PriceShape, PriceText and PriceObject |
| Booking.LineThrows | frontend/api/book.js:81-100 | a line throws when its truthy value cannot be converted, and the price line only for an object's truthy priceText; stated by CountLineConverts and UnconvertibleField |
| Booking.LinesThrow | frontend/api/book.js:81-100 | building the lines throws iff some line throws; stated by Delivery, KeyRequired and UnconvertibleField |
| Booking.Line | frontend/api/book.js:84-99 | line k of the fields: the price line or a labelled value; stated by EmailLayout, PanelCountLine and ServiceLine |
| Booking.ObjectPrice | frontend/api/book.js:24-33 | an object's price line: its truthy priceText, else a numeric price as $n.00, else not quoted; stated by PriceObject |
| Booking.BookingEmail | frontend/api/book.js:102-106 | the e-mail sent: the recipient, the heading as subject, and the lines joined with newlines; stated by EmailLines and Delivery |
| Booking.CountLineConverts | frontend/api/book.js:77-94 | the panel count line never throws, since only a number is shown there |
| Booking.PriceText | frontend/api/book.js:18-23 | a missing or empty price is "Not quoted"; a string is shown as given |
| Booking.PriceObject | frontend/api/book.js:24-33 | an object shows its priceText, else a numeric price as $n.00, else "Not quoted" |
| Booking.PanelCountLine | frontend/api/book.js:77-94 | a zero or non-numeric panel count reads "Not provided" |
| Booking.ServiceLine | frontend/api/book.js:90 | the service defaults to the standard cleaning |
| Booking.EmailLines | frontend/api/book.js:81-105 | the e-mail text splits back into its lines |
| Booking.Recipient | frontend/api/book.js:75 | the recipient is BOOKING_TO_EMAIL or the default |
| Booking.ResendKey | frontend/api/book.js:41-44 | the key is used iff it is set and non-empty |
| Booking.NotPost | frontend/api/book.js:69-71 | non-POST answers 405 and sends nothing |
| Booking.Delivery | frontend/api/book.js:68-113 | an e-mail is sent iff the request is a POST with a parsable non-null body whose lines can be built and a key; it goes to the recipient under the heading, and the reply is 200 iff sending succeeds, otherwise 500 with the error |
| Booking.KeyRequired | frontend/api/book.js:41-112 | without a key the reply is 500 with the missing-key message, or with the TypeError message when a line has already thrown, and nothing is sent |
| Booking.UnconvertibleField | frontend/api/book.js:81-112 | a shown field String cannot convert makes the reply 500 with "Cannot convert object to primitive value", and nothing is sent |
| Booking.Handle | frontend/api/book.js:68-113 | the handler replies as Answer says and reports the e-mail it tried to send |
| Booking.Answer | frontend/api/book.js:68-113 | the handler's reply and the e-mail handed over; stated by NotPost, Delivery, KeyRequired and UnconvertibleField, and Handle is proved to write it |

## Left out

- The message regular expressions in `frontend/api/chat.js` and `api/chat.js` are not modelled character by character. Their captures are an input, `Captures`, produced by a `scan` parameter. The second panel-count pattern is subsumed by the first, so it adds no case.
- parseInt is modelled exactly for integers. JavaScript's loss of precision above 2^53 is not modelled, because JSON numbers here are unbounded integers.
- Floating-point numbers are not modelled (`Json` numbers are integers). So `toFixed(2)` is exact only for integer prices (`Booking.PriceObject`).
- JsonParser.Parse: it rejects every number with a fraction or an exponent, which JSON.parse accepts. So a text body such as {"message":"hi","t":0.5} is answered differently from the source. BodyParser.Middleware passes on a 400 "Invalid JSON body" error for it. SiteChat.Answer and Booking.Answer answer 500 with the SyntaxError message. ApiChat.Answer rejects outside its try. An OpenAI stream frame holding any fractional number is skipped by OpenAi.JsonEvent, so its token is lost.
- JsonParser.Parse: an object keeps every member in source order, duplicate keys included. JSON.parse keeps one property per key, with the last value at the first key's position, and lists integer-like keys ("1", "2") first in ascending order. Reads agree, because Json.Lookup returns the last field with a key. The difference shows only where a parsed object is stringified again: an object-valued delta token goes back out in ChatRoute's {token} frame (ChatRoute.TokenFrames), where the model writes every member as parsed. JSON values taken as parameters, such as the quote service's response, may likewise hold duplicate keys, which a JavaScript object cannot.
- JsonParser.Parse: a `\u` escape that gives a lone surrogate ("\ud800") is rejected, because Dafny characters are Unicode scalar values; JSON.parse accepts it.
- toLowerCase lowers ASCII letters only; Unicode case mapping is not modelled.
- Error messages that come from the JavaScript engine are constants. These are the SyntaxError text of JSON.parse, the TypeError read off a null booking body, and the TypeError of converting an object with its own toString (`Json.ConvertError`).
- console.log and console.error calls are left out: they have no effect on replies.
- Network calls are parameters whose results the model takes as given. These are fetch to OpenAI, the quote service and Resend, and the OpenAI stream's chunks.
- The TextDecoder that turns stream bytes into text is left out; chunks are text already.
- Serverless.ForwardedProto: the array form of x-forwarded-proto cannot arise from the serverless handlers' string-valued headers, so that case is proved but unused.
- Dispatcher.PathPart: url.parse's pathname is modelled as the text before the first "?" or "#". Four things url.parse also does are not modelled. It trims leading and trailing white space and control characters. It turns `\` into "/" before the query. It percent-escapes spaces and some other characters ("/a b" becomes "/a%20b"). And for an absolute-form target it takes the path after the host ("http://h/health" routes as "/health").
- Dispatcher.Pathname: it inherits those four gaps from Dispatcher.PathPart. Query parsing is left out too, because no route reads a query parameter beyond `stream`.
- ApiChat.Handle: it requires a response whose headers are unsent, because the serverless platform hands every invocation a fresh one. On a sent response, the source's reply inside the try would throw, and the catch would set 500 and throw again; that case is not modelled.
- SiteChat.Handle: it requires unsent headers for the same reason, and the same rethrow is not modelled.
- Booking.Handle: it requires unsent headers for the same reason, and the same rethrow is not modelled.
- Dispatcher.App.Handle: it models one request at a time. Interleaving of asynchronous handlers and `http.createServer`/`listen` are left out.
- Dispatcher.Steps: every next call is treated as a call made inside the enclosing step's try. Two calls in the source are not. json()'s 'end' callback (backend/local_modules/express/index.js:179-191) and the chat route's next(err) after an await (backend/routes/chat.js:55-57) run later, outside the dispatcher's try/catch. A throw escaping the rest of the chain from there is an uncaught exception or an unhandled rejection, not a step(e). Also, json()'s own try wraps its next(), so such a throw is first relabelled as a 400 "Invalid JSON body" and passed on with next(err). Neither effect is modelled.
- ChatRoute.SendTokens: a streamed token that String cannot convert makes `fullReply += token` throw in the source. The model joins the tokens with Json.ValueString and does not model that throw.
- Booking.FormatValueCases: the text of a line is stated for a value that converts. A value that does not makes the template throw instead; Booking.LineThrows and Booking.Answer model that throw (Booking.UnconvertibleField).
- Json.ValueString: it gives String(v) only for a value that converts. Each caller checks Json.Unconvertible first, except ChatRoute.SendTokens (above).
- crypto.randomUUID, Date.now and process.env are parameters (`freshId`, `now`, `env`).
- The `.env` file's existence and contents are a parameter of `Dotenv.ProcessEnv.Config`; reading the file from disk is left out.
- Sessions are never evicted except on lookup, as in the source; the store's unbounded growth is not a stated property.
- `frontend/widget.js` (browser UI) and `frontend/api/quote.js` (the quote service itself) are not part of this model. The quote service is a parameter `QuoteService`.
- ApiChat.MessageChecked: the 400 case is stated in one direction for valid messages. A 400 can also come back from OpenAI, so "400 iff invalid" does not hold.

## Findings

| source | as written | input that shows it | evidently intended | confidence | as-written member | corrected member |
|---|---|---|---|---|---|---|
| backend/local_modules/express/index.js:97-104 with backend/server.js:25-27 | the `/health` handler is arity 2, so after it replies `step()` calls next; the stack runs out and the 404 writer calls setHeader on a sent response, which throws; the catch passes the error on, the writer throws again, and the error escapes `handle` with the status already changed to 500. In the full stack of backend/server.js the same throw repeats through each enclosing layer and finally leaves json()'s 'end' callback uncaught (see Dispatcher.Steps under Left out); the model shows the throw on an application holding just the route | GET /health on a fresh response, on Dispatcher.HealthApp | the final writer checks whether headers were sent and leaves an answered response alone | not executed | Dispatcher.HealthEscapes | Dispatcher.HealthAnswered |

## Notes on the handlers

- `api/chat.js` parses the body outside its try block. A malformed body therefore throws out of the handler and no reply is written.
- `api/chat.js` accepts a whitespace-only message, passes it to OpenAI untrimmed, checks the OpenAI key before the quote path, and always uses gpt-4o-mini.
