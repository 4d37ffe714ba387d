/**
 * The server-sent-events helpers: the stream headers, one `data:` frame per event, and the
 * end of the stream.
 */
module Sse {
  import opened Json
  import opened Http

  /** The response once the three stream headers are set and sent. */
  function StreamHead(r: ResState): ResState {
    WithHeader(WithHeader(WithHeader(r, "Content-Type", HStr("text/event-stream")),
      "Cache-Control", HStr("no-cache")), "Connection", HStr("keep-alive")).(headersSent := true)
  }

  /** The stream headers are exactly the three, on top of what was set before. */
  lemma StreamHeaders(r: ResState)
    ensures StreamHead(r).headers == r.headers["content-type" := HStr("text/event-stream")]
      ["cache-control" := HStr("no-cache")]["connection" := HStr("keep-alive")]
    ensures StreamHead(r).headersSent && StreamHead(r).body == r.body
      && StreamHead(r).statusCode == r.statusCode && StreamHead(r).finished == r.finished
  {
    assert Text.Lower("Content-Type") == "content-type";
    assert Text.Lower("Cache-Control") == "cache-control";
    assert Text.Lower("Connection") == "connection";
  }

  /** `initSSE(res)`. The first `setHeader` throws when headers are already out, and then
      nothing changes. */
  method Init(res: Response) returns (ok: bool)
    modifies res
    ensures ok == !old(res.headersSent)
    ensures res.Value() == if ok then StreamHead(old(res.Value())) else old(res.Value())
  {
    ok := res.SetHeader("Content-Type", HStr("text/event-stream"));
    if ok {
      var _ := res.SetHeader("Cache-Control", HStr("no-cache"));
      var _ := res.SetHeader("Connection", HStr("keep-alive"));
      res.FlushHeaders();
    }
  }

  /** The text `sendEvent(res, data)` writes: one `data:` line and a blank line. */
  function Frame(data: Json): string {
    "data: " + Stringify(data) + "\n\n"
  }

  /** A frame holds exactly one blank line, at its end: frames never run together. */
  lemma FrameShape(data: Json)
    ensures var f := Frame(data);
      |f| >= 2 && f[|f| - 2..] == "\n\n" && '\n' !in f[..|f| - 2]
  {
    StringifyShape(data);
    var f := Frame(data);
    assert f[..|f| - 2] == "data: " + Stringify(data);
    assert f[|f| - 2..] == "\n\n";
  }

  /** `sendEvent(res, data)`. */
  method SendEvent(res: Response, data: Json)
    requires !res.finished
    modifies res
    ensures res.Value() == old(res.Value()).(body := old(res.body) + Frame(data), headersSent := true)
  {
    res.Write(Frame(data));
  }

  /** `close(res)`. */
  method Close(res: Response)
    modifies res
    ensures res.Value() == Ended(old(res.Value()), "")
  {
    res.End("");
  }
}
