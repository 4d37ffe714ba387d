/**
 * The upstream chat-completions client: the configuration it reads from the environment,
 * the reply it extracts from a completion, and the decoder that turns a streamed
 * completion (server-sent events) into the content tokens it yields. The network is not
 * modelled: a completion arrives as a parsed JSON value, a stream as its decoded text chunks.
 */
module OpenAi {
  import opened Base
  import opened Text
  import opened Json
  import JsonParser
  import Sse
  import Http

  const ApiUrl := "https://api.openai.com/v1/chat/completions"
  const DefaultModel := "gpt-4o-mini"
  const MissingKey := Http.Error(None, "OPENAI_API_KEY is not set")

  /** `getApiKey()`: an absent or empty key throws. */
  function ApiKey(env: map<string, string>): (r: Result<string, Http.Error>)
    ensures r.Ok? <==> "OPENAI_API_KEY" in env && env["OPENAI_API_KEY"] != ""
    ensures r.Ok? ==> r.value == env["OPENAI_API_KEY"]
    ensures r.Err? ==> r.error == MissingKey
  {
    if "OPENAI_API_KEY" in env && env["OPENAI_API_KEY"] != "" then Ok(env["OPENAI_API_KEY"]) else Err(MissingKey)
  }

  /** `getModel()`: the configured model, or the default when it is absent or empty. */
  function Model(env: map<string, string>): (m: string)
    ensures m != ""
    ensures m == DefaultModel || ("OPENAI_MODEL" in env && m == env["OPENAI_MODEL"])
  {
    if "OPENAI_MODEL" in env && env["OPENAI_MODEL"] != "" then env["OPENAI_MODEL"] else DefaultModel
  }

  // ---------------------------------------------------------------- a whole completion

  /** `data.choices?.[0]?.message?.content?.trim() || ''`. `None` when the expression throws:
      `data` is `null`, or the content is present but not a string (it has no `trim`). */
  function CompletionText(data: Json): (r: Option<string>)
    ensures r.Some? ==> Trim(r.value) == r.value
  {
    if data.JNull? then None
    else
      var content := Get(Get(Index0(Get(Some(data), "choices")), "message"), "content");
      match content
      case None => Some("")
      case Some(JNull) => Some("")
      case Some(JStr(s)) => TrimTrim(s); Some(Trim(s))
      case Some(_) => None
  }

  /** A completion whose first choice carries text `s` yields `s` trimmed. */
  lemma CompletionOfMessage(s: string, more: seq<Json>)
    ensures CompletionText(JObj([Field("choices",
      JArr([JObj([Field("message", JObj([Field("role", JStr("assistant")), Field("content", JStr(s))]))])] + more))]))
      == Some(Trim(s))
  {
    var message := JObj([Field("role", JStr("assistant")), Field("content", JStr(s))]);
    var first := JObj([Field("message", message)]);
    var data := JObj([Field("choices", JArr([first] + more))]);
    assert ([first] + more)[0] == first;
    assert Index0(Get(Some(data), "choices")) == Some(first);
    assert Get(Some(first), "message") == Some(message);
    assert Get(Some(message), "content") == Some(JStr(s));
  }

  // ---------------------------------------------------------------- framing

  /** The frames cut from a buffer at each blank line, and the tail still waiting for one. */
  datatype Frames = Frames(frames: seq<string>, rest: string)

  /** The inner loop of `streamCompletion`: cut at the first `"\n\n"` until none is left. */
  function FramesOf(buf: string): (r: Frames)
    ensures IndexOf(r.rest, "\n\n") == -1
    decreases |buf|
  {
    var k := IndexOf(buf, "\n\n");
    if k == -1 then Frames([], buf)
    else
      var more := FramesOf(buf[k + 2..]);
      Frames([buf[..k]] + more.frames, more.rest)
  }

  /** A first occurrence stays first when text is appended. */
  lemma IndexOfExtend(b: string, r: string, pat: string)
    requires IndexOf(b, pat) != -1
    ensures IndexOf(b + r, pat) == IndexOf(b, pat)
  {
    var k := IndexOf(b, pat);
    assert (b + r)[k..k + |pat|] == b[k..k + |pat|];
    assert OccursAt(b + r, pat, k);
    forall i | 0 <= i < k
      ensures !OccursAt(b + r, pat, i)
    {
      assert !OccursAt(b, pat, i);
      assert (b + r)[i..i + |pat|] == b[i..i + |pat|];
    }
  }

  /** Cutting a frame off the front of a buffer does not depend on what follows it. */
  lemma FramesStep(b: string, r: string)
    requires IndexOf(b, "\n\n") != -1
    ensures var k := IndexOf(b, "\n\n"); var more := FramesOf(b[k + 2..] + r);
      FramesOf(b + r) == Frames([b[..k]] + more.frames, more.rest)
  {
    var k := IndexOf(b, "\n\n");
    IndexOfExtend(b, r, "\n\n");
    assert (b + r)[..k] == b[..k];
    assert (b + r)[k + 2..] == b[k + 2..] + r;
  }

  /** A line without a line feed, then a blank line, is cut as one frame. */
  lemma FrameCut(p: string, r: string)
    requires '\n' !in p
    ensures var more := FramesOf(r); FramesOf(p + "\n\n" + r) == Frames([p] + more.frames, more.rest)
  {
    var s := p + "\n\n" + r;
    assert OccursAt(s, "\n\n", |p|) by { assert s[|p|..|p| + 2] == "\n\n"; }
    forall i | 0 <= i < |p|
      ensures !OccursAt(s, "\n\n", i)
    {
      assert s[i] == p[i];
    }
    assert s[..|p|] == p && s[|p| + 2..] == r;
  }

  // ---------------------------------------------------------------- events

  /** What one frame means to the stream: nothing, a token, or the end marker. */
  datatype Event = Skip | Token(value: Json) | Done

  /** The payload of a `data:` frame: the trimmed frame without `data:` and the white
      space after it. */
  function Payload(frame: string): Option<string> {
    var chunk := Trim(frame);
    if StartsWith(chunk, "data:") then Some(TrimStart(chunk[5..])) else None
  }

  /** `parsed.choices?.[0]?.delta?.content`. */
  function DeltaContent(parsed: Json): Option<Json> {
    Get(Get(Index0(Get(Some(parsed), "choices")), "delta"), "content")
  }

  /** The loop body of `streamCompletion` for one frame. A payload that does not parse is
      logged and skipped; a falsy token is skipped. */
  function EventOf(frame: string): (e: Event)
    ensures e.Token? ==> Truthy(Some(e.value))
  {
    match Payload(frame)
    case None => Skip
    case Some(p) =>
      if p == "[DONE]" then Done
      else match JsonParser.Parse(p)
        case None => Skip
        case Some(parsed) =>
          var t := DeltaContent(parsed);
          if Truthy(t) then Token(t.value) else Skip
  }

  /** The event of each frame, in order. */
  function EventsOf(frames: seq<string>): seq<Event>
    decreases |frames|
  {
    if |frames| == 0 then [] else [EventOf(frames[0])] + EventsOf(frames[1..])
  }

  lemma EventsCons(frame: string, more: seq<string>)
    ensures EventsOf([frame] + more) == [EventOf(frame)] + EventsOf(more)
  {
    assert ([frame] + more)[1..] == more;
  }

  /** The events carry only truthy tokens. */
  lemma {:induction false} EventsTruthy(frames: seq<string>)
    ensures forall k :: 0 <= k < |EventsOf(frames)| && EventsOf(frames)[k].Token? ==> Truthy(Some(EventsOf(frames)[k].value))
    decreases |frames|
  {
    if |frames| > 0 {
      EventsTruthy(frames[1..]);
      var es := EventsOf(frames);
      assert es[1..] == EventsOf(frames[1..]);
    }
  }

  /** The tokens the events yield, up to the first end marker. */
  function Tokens(events: seq<Event>): seq<Json>
    decreases |events|
  {
    if |events| == 0 then []
    else match events[0]
      case Done => []
      case Skip => Tokens(events[1..])
      case Token(t) => [t] + Tokens(events[1..])
  }

  /** The tokens a whole stream body yields; a tail without a closing blank line is dropped. */
  function StreamTokens(body: string): seq<Json> {
    Tokens(EventsOf(FramesOf(body).frames))
  }

  /** One frame more in front of the rest. */
  lemma TokensStep(frame: string, more: seq<string>)
    ensures var e := EventOf(frame); var rest := Tokens(EventsOf(more));
      Tokens(EventsOf([frame] + more)) == match e
        case Done => []
        case Skip => rest
        case Token(t) => [t] + rest
  {
    EventsCons(frame, more);
    var es := [EventOf(frame)] + EventsOf(more);
    assert es[0] == EventOf(frame) && es[1..] == EventsOf(more);
  }

  /** Every token yielded is truthy. */
  lemma {:induction false} TokensTruthy(events: seq<Event>)
    requires forall k :: 0 <= k < |events| && events[k].Token? ==> Truthy(Some(events[k].value))
    ensures forall k :: 0 <= k < |Tokens(events)| ==> Truthy(Some(Tokens(events)[k]))
    decreases |events|
  {
    if |events| > 0 {
      TokensTruthy(events[1..]);
    }
  }

  /** Every token a stream body yields is truthy. */
  lemma StreamTokensTruthy(body: string)
    ensures forall k :: 0 <= k < |StreamTokens(body)| ==> Truthy(Some(StreamTokens(body)[k]))
  {
    EventsTruthy(FramesOf(body).frames);
    TokensTruthy(EventsOf(FramesOf(body).frames));
  }

  /** Nothing after the end marker counts. */
  lemma {:induction false} TokensDone(before: seq<Event>, after: seq<Event>)
    requires Done !in before
    ensures Tokens(before + [Done] + after) == Tokens(before)
    decreases |before|
  {
    var all := before + [Done] + after;
    if |before| == 0 {
      assert all[0] == Done;
    } else {
      assert all[0] == before[0];
      assert all[1..] == before[1..] + [Done] + after;
      TokensDone(before[1..], after);
    }
  }

  /** The payload of a `data:` frame is what follows `data:` and its spaces. */
  lemma DataPayload(s: string)
    requires |s| >= 1 && IsValueStart(s[0]) && IsValueEnd(Last(s))
    ensures Payload("data: " + s) == Some(s)
  {
    var f := "data: " + s;
    NoSpaceEnds(f, s);
    assert f[..5] == "data:" && f[5..] == " " + s;
    SpaceThen(s);
    PayloadOf(f, s);
  }

  lemma PayloadOf(frame: string, s: string)
    requires Trim(frame) == frame && |frame| >= 5 && frame[..5] == "data:" && TrimStart(frame[5..]) == s
    ensures Payload(frame) == Some(s)
  {
  }

  lemma SpaceThen(s: string)
    requires |s| >= 1 && IsValueStart(s[0])
    ensures TrimStart(" " + s) == s
  {
    ValueStartNotSpace(s[0]);
    assert (" " + s)[0] == ' ' && (" " + s)[1..] == s;
    assert TrimStart(s) == s;
  }

  lemma ValueStartNotSpace(c: char)
    requires IsValueStart(c)
    ensures !IsSpace(c)
  {
  }

  /** The same without the space. */
  lemma DataPayloadTight(s: string)
    requires |s| >= 1 && IsValueStart(s[0]) && IsValueEnd(Last(s))
    ensures Payload("data:" + s) == Some(s)
  {
    var g := "data:" + s;
    NoSpaceEnds(g, s);
    assert g[..5] == "data:" && g[5..] == s;
    ValueStartNotSpace(s[0]);
    assert TrimStart(s) == s;
    PayloadOf(g, s);
  }

  lemma NoSpaceEnds(f: string, s: string)
    requires |s| >= 1 && IsValueEnd(Last(s)) && |f| > |s| && f[0] == 'd' && f[|f| - |s|..] == s
    ensures Trim(f) == f
  {
    assert Last(f) == Last(s);
    TrimNoop(f);
  }

  /** The end marker, with or without a space after `data:`. */
  lemma DoneEvent()
    ensures EventOf("data: [DONE]") == Done
    ensures EventOf("data:[DONE]") == Done
  {
    DoneSpaced();
    DoneTight();
  }

  lemma DoneOf(frame: string)
    requires Payload(frame) == Some("[DONE]")
    ensures EventOf(frame) == Done
  {
  }

  lemma DoneSpaced()
    ensures EventOf("data: [DONE]") == Done
  {
    SpacedMarker();
    DoneOf("data: [DONE]");
  }

  lemma DoneTight()
    ensures EventOf("data:[DONE]") == Done
  {
    TightMarker();
    DoneOf("data:[DONE]");
  }

  lemma SpacedMarker()
    ensures Payload("data: [DONE]") == Some("[DONE]")
  {
    var d := "[DONE]";
    assert d[0] == '[' && Last(d) == ']';
    DataPayload(d);
    assert "data: " + d == "data: [DONE]";
  }

  lemma TightMarker()
    ensures Payload("data:[DONE]") == Some("[DONE]")
  {
    var d := "[DONE]";
    assert d[0] == '[' && Last(d) == ']';
    DataPayloadTight(d);
    assert "data:" + d == "data:[DONE]";
  }

  /** The upstream event that carries text `t` as its first choice's delta. */
  function Delta(t: string): Json {
    JObj([Field("choices", JArr([JObj([Field("delta", JObj([Field("content", JStr(t))]))])]))])
  }

  /** A `data:` line carrying serialised JSON is read as that value's delta content. */
  lemma JsonEvent(j: Json)
    ensures var t := DeltaContent(j);
      EventOf("data: " + Stringify(j)) == if Truthy(t) then Token(t.value) else Skip
  {
    var s := Stringify(j);
    StringifyShape(j);
    DataPayload(s);
    StringifyNotDone(j);
    JsonParser.ParseStringify(j);
  }

  /** A delta event yields its text exactly when the text is not empty. */
  lemma DeltaEvent(t: string)
    ensures EventOf("data: " + Stringify(Delta(t))) == if t == "" then Skip else Token(JStr(t))
  {
    JsonEvent(Delta(t));
    var delta := JObj([Field("content", JStr(t))]);
    var choice := JObj([Field("delta", delta)]);
    assert Index0(Get(Some(Delta(t)), "choices")) == Some(choice);
    assert Get(Some(choice), "delta") == Some(delta);
    assert DeltaContent(Delta(t)) == Some(JStr(t));
  }

  /** What `sendEvent` writes, the stream reader cuts and reads back: each frame's payload
      parses to the value sent. */
  lemma SentFrame(data: Json, r: string)
    ensures var more := FramesOf(r);
      FramesOf(Sse.Frame(data) + r) == Frames(["data: " + Stringify(data)] + more.frames, more.rest)
    ensures Payload("data: " + Stringify(data)) == Some(Stringify(data))
    ensures JsonParser.Parse(Stringify(data)) == Some(data)
  {
    FrameSplit(data, r);
    DataPayload(Stringify(data));
    JsonParser.ParseStringify(data);
  }

  /** A frame written by `sendEvent` is cut off whole, before whatever follows it. */
  lemma FrameSplit(data: Json, r: string)
    ensures var more := FramesOf(r);
      FramesOf(Sse.Frame(data) + r) == Frames(["data: " + Stringify(data)] + more.frames, more.rest)
  {
    var p := "data: " + Stringify(data);
    StringifyShape(data);
    assert '\n' !in p;
    assert Sse.Frame(data) + r == p + "\n\n" + r;
    FrameCut(p, r);
  }

  // ---------------------------------------------------------------- the reader loop

  lemma Assoc(a: seq<Json>, b: seq<Json>, c: seq<Json>)
    ensures a + (b + c) == (a + b) + c
  {
  }

  lemma StringAssoc(a: string, b: string, c: string)
    ensures a + (b + c) == (a + b) + c
  {
  }

  /** The tokens of the frames a buffer holds now, and beyond them those of what follows it. */
  function Pending(buffer: string, tail: string): seq<Json> {
    Tokens(EventsOf(FramesOf(buffer + tail).frames))
  }

  /** A buffer without a blank line, with nothing to follow, holds no frame. */
  lemma PendingEmpty(buffer: string, tail: string)
    requires IndexOf(buffer, "\n\n") == -1 && tail == ""
    ensures Pending(buffer, tail) == []
  {
    assert buffer + tail == buffer;
  }

  /** Text moved from what is to come into the buffer changes nothing. */
  lemma PendingShift(b: string, c: string, t: string)
    ensures Pending(b, c + t) == Pending(b + c, t)
  {
    StringAssoc(b, c, t);
  }

  /** The first frame of a buffer that holds one decides what comes first among its tokens. */
  lemma PendingStep(buffer: string, tail: string, e: Event)
    requires IndexOf(buffer, "\n\n") != -1
    requires e == EventOf(buffer[..IndexOf(buffer, "\n\n")])
    ensures var next := buffer[IndexOf(buffer, "\n\n") + 2..];
      && (e.Done? ==> Pending(buffer, tail) == [])
      && (e.Skip? ==> Pending(buffer, tail) == Pending(next, tail))
      && (e.Token? ==> Pending(buffer, tail) == [e.value] + Pending(next, tail))
  {
    var k := IndexOf(buffer, "\n\n");
    FramesStep(buffer, tail);
    TokensStep(buffer[..k], FramesOf(buffer[k + 2..] + tail).frames);
  }

  /** One turn of the inner loop: the first frame cut from the buffer and handled, its event
      read, and what that event adds in front of the tokens of the rest. */
  method Step(buffer: string, ghost tail: string) returns (e: Event, next: string)
    requires IndexOf(buffer, "\n\n") != -1
    ensures |next| < |buffer|
    ensures e.Done? ==> Pending(buffer, tail) == []
    ensures e.Skip? ==> Pending(buffer, tail) == Pending(next, tail)
    ensures e.Token? ==> Pending(buffer, tail) == [e.value] + Pending(next, tail)
  {
    var boundary := IndexOf(buffer, "\n\n");
    e := EventOf(buffer[..boundary]);
    next := buffer[boundary + 2..];
    PendingStep(buffer, tail, e);
  }

  /** The inner loop of `streamCompletion`: every complete frame in the buffer handled in
      order, until none is left or the end marker returns. `tail` is the text still to
      arrive; it does not change what is cut now. */
  method Drain(buffer0: string, ghost tail: string) returns (yielded: seq<Json>, buffer: string, done: bool)
    ensures !done ==> IndexOf(buffer, "\n\n") == -1
    ensures Pending(buffer0, tail) == yielded + (if done then [] else Pending(buffer, tail))
  {
    yielded := [];
    buffer := buffer0;
    done := false;
    var boundary := IndexOf(buffer, "\n\n");
    while boundary != -1
      invariant boundary == IndexOf(buffer, "\n\n")
      invariant Pending(buffer0, tail) == yielded + Pending(buffer, tail)
      decreases |buffer|
    {
      var e, next := Step(buffer, tail);
      if e.Done? {
        buffer := next;
        done := true;
        return;
      }
      if e.Token? {
        Assoc(yielded, [e.value], Pending(next, tail));
        yielded := yielded + [e.value];
      }
      buffer := next;
      boundary := IndexOf(buffer, "\n\n");
    }
  }

  /** `streamCompletion` over a body that arrives in `chunks`: the tokens it yields in order.
      The result depends only on the text, not on where the chunks split it. */
  method Decode(chunks: seq<string>) returns (tokens: seq<Json>)
    ensures tokens == StreamTokens(Concat(chunks))
  {
    tokens := [];
    var buffer := "";
    var i := 0;
    assert buffer + Concat(chunks[i..]) == Concat(chunks);
    while i < |chunks|
      invariant i <= |chunks|
      invariant IndexOf(buffer, "\n\n") == -1
      invariant StreamTokens(Concat(chunks)) == tokens + Pending(buffer, Concat(chunks[i..]))
      decreases |chunks| - i
    {
      ConcatFrom(chunks, i);
      PendingShift(buffer, chunks[i], Concat(chunks[i + 1..]));
      var yielded, done;
      yielded, buffer, done := Drain(buffer + chunks[i], Concat(chunks[i + 1..]));
      ghost var after := if done then [] else Pending(buffer, Concat(chunks[i + 1..]));
      Assoc(tokens, yielded, after);
      tokens := tokens + yielded;
      i := i + 1;
      if done {
        assert tokens + [] == tokens;
        return;
      }
    }
    PendingEmpty(buffer, Concat(chunks[i..]));
  }
}
