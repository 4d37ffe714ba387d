/**
 * `express.json()`: the middleware that reads the request body and parses it as JSON.
 * The chunks are taken as already received and decoded (see README, "Left out").
 */
module BodyParser {
  import opened Base
  import opened Text
  import opened Json
  import opened Http
  import JsonParser

  /** The error the middleware passes on for a body that is not JSON. */
  const InvalidJson := Error(Some(400), "Invalid JSON body")

  /** The body `req.body` receives, or the error `next` is called with. No chunk at all is an
      empty object; a body that does not parse is a 400. */
  function ParseBody(chunks: seq<string>): (r: Result<Json, Error>)
    ensures |chunks| == 0 ==> r == Ok(JObj([]))
    ensures r.Err? <==> |chunks| > 0 && JsonParser.Parse(Concat(chunks)).None?
    ensures r.Err? ==> r.error == InvalidJson
    ensures |chunks| > 0 && r.Ok? ==> JsonParser.Parse(Concat(chunks)) == Some(r.value)
  {
    if |chunks| == 0 then Ok(JObj([]))
    else match JsonParser.Parse(Concat(chunks))
      case Some(j) => Ok(j)
      case None => Err(InvalidJson)
  }

  /** A body that is serialised JSON is read back as that value, however it was chunked. */
  lemma ParseBodyStringify(chunks: seq<string>, j: Json)
    requires |chunks| > 0 && Concat(chunks) == Stringify(j)
    ensures ParseBody(chunks) == Ok(j)
  {
    JsonParser.ParseStringify(j);
  }

  /** Chunks that carry no text are not the same as no chunks: they are a 400. */
  lemma EmptyChunkInvalid()
    ensures ParseBody([""]) == Err(InvalidJson)
  {
    assert Concat([""]) == "";
    assert JsonParser.Parse("") == None;
  }

  /** The middleware, once the request stream has ended. */
  method Middleware(req: Request, chunks: seq<string>) returns (o: Outcome)
    modifies req
    ensures var r := ParseBody(chunks);
      o == (if r.Ok? then Advance else AdvanceErr(r.error))
      && req.body == (if r.Ok? then Some(r.value) else old(req.body))
    ensures req.Value() == old(req.Value()) && req.headers == old(req.headers) && req.query == old(req.query)
      && req.cookies == old(req.cookies) && req.session == old(req.session)
  {
    var r := ParseBody(chunks);
    if r.Ok? {
      req.body := Some(r.value);
      o := Advance;
    } else {
      o := AdvanceErr(r.error);
    }
  }
}
