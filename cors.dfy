/**
 * `cors`: the middleware that adds the cross-origin headers to every response and answers
 * a preflight (`OPTIONS`) request itself with `204 No Content`.
 */
module Cors {
  import opened Base
  import opened Text
  import opened Http

  /** `origin: true` reflects the request's origin; a string is sent as it is. */
  datatype OriginOption = Reflect | Fixed(origin: string)

  datatype CorsOptions = CorsOptions(origin: OriginOption, credentials: bool)

  /** `cors()` with no options. */
  const DefaultOptions := CorsOptions(Fixed("*"), false)

  /** The origin the response allows; `""` is falsy and sends no header. */
  function AllowedOrigin(o: OriginOption, requestOrigin: Option<string>): (a: string)
    ensures o.Reflect? ==> a != ""
    ensures o.Reflect? && requestOrigin.Some? && requestOrigin.value != "" ==> a == requestOrigin.value
  {
    match o
    case Reflect => if requestOrigin.Some? && requestOrigin.value != "" then requestOrigin.value else "*"
    case Fixed(s) => s
  }

  /** The headers the middleware adds, under their lower-cased names. */
  function CorsMap(opts: CorsOptions, requestOrigin: Option<string>): map<string, HeaderValue> {
    var allowed := AllowedOrigin(opts.origin, requestOrigin);
    (if allowed != "" then map["access-control-allow-origin" := HStr(allowed)] else map[])
    + map["access-control-allow-methods" := HStr("GET,POST,OPTIONS"),
          "access-control-allow-headers" := HStr("Content-Type")]
    + (if opts.credentials && allowed != "*" then map["access-control-allow-credentials" := HStr("true")] else map[])
  }

  /** Credentials are never allowed together with the wildcard origin: when the credentials
      header is sent, the origin header is absent or names one origin. */
  lemma NoCredentialedWildcard(opts: CorsOptions, requestOrigin: Option<string>)
    ensures var m := CorsMap(opts, requestOrigin);
      "access-control-allow-credentials" in m ==>
        m["access-control-allow-credentials"] == HStr("true")
        && ("access-control-allow-origin" in m ==> m["access-control-allow-origin"] != HStr("*"))
  {
  }

  /** The methods and headers are always advertised; the origin header is sent exactly when
      an origin is allowed, and then carries it. */
  lemma CorsMapContents(opts: CorsOptions, requestOrigin: Option<string>)
    ensures var m := CorsMap(opts, requestOrigin); var allowed := AllowedOrigin(opts.origin, requestOrigin);
      m["access-control-allow-methods"] == HStr("GET,POST,OPTIONS")
      && m["access-control-allow-headers"] == HStr("Content-Type")
      && ("access-control-allow-origin" in m <==> allowed != "")
      && (allowed != "" ==> m["access-control-allow-origin"] == HStr(allowed))
      && ("access-control-allow-credentials" in m <==> opts.credentials && allowed != "*")
      && m.Keys <= {"access-control-allow-origin", "access-control-allow-methods",
                    "access-control-allow-headers", "access-control-allow-credentials"}
  {
  }

  /** The response and outcome of the middleware. When the headers are already out, the
      first `setHeader` throws and nothing changes. */
  function Apply(opts: CorsOptions, verb: string, requestOrigin: Option<string>, r: ResState): (ResState, Outcome) {
    if r.headersSent then (r, Throw(HeadersSent))
    else
      var r1 := r.(headers := r.headers + CorsMap(opts, requestOrigin));
      if verb == "OPTIONS" then (Ended(r1.(statusCode := 204), ""), Stop) else (r1, Advance)
  }

  /** A preflight is answered here, with an empty `204`, and goes no further; any other
      request continues with its status and body untouched. */
  lemma PreflightAnswered(opts: CorsOptions, verb: string, requestOrigin: Option<string>, r: ResState)
    requires !r.headersSent && !r.finished
    ensures var (r', o) := Apply(opts, verb, requestOrigin, r);
      (verb == "OPTIONS" <==> o == Stop)
      && (verb == "OPTIONS" ==> r'.statusCode == 204 && r'.finished && r'.body == r.body)
      && (verb != "OPTIONS" ==> o == Advance && r'.statusCode == r.statusCode && !r'.finished && r'.body == r.body)
      && r'.headers == r.headers + CorsMap(opts, requestOrigin)
  {
  }

  /** The four header names, lower-cased as `setHeader` stores them. */
  lemma LowerNames()
    ensures Lower("Access-Control-Allow-Origin") == "access-control-allow-origin"
    ensures Lower("Access-Control-Allow-Methods") == "access-control-allow-methods"
    ensures Lower("Access-Control-Allow-Headers") == "access-control-allow-headers"
    ensures Lower("Access-Control-Allow-Credentials") == "access-control-allow-credentials"
  {
    LowerOrigin();
    LowerMethods();
    LowerHeaders();
    LowerCredentials();
  }

  lemma LowerOrigin()
    ensures Lower("Access-Control-Allow-Origin") == "access-control-allow-origin"
  {
    LowerOne("Origin", "origin", "Access-Control-Allow-Origin", "access-control-allow-origin");
  }

  lemma LowerMethods()
    ensures Lower("Access-Control-Allow-Methods") == "access-control-allow-methods"
  {
    LowerOne("Methods", "methods", "Access-Control-Allow-Methods", "access-control-allow-methods");
  }

  lemma LowerHeaders()
    ensures Lower("Access-Control-Allow-Headers") == "access-control-allow-headers"
  {
    LowerOne("Headers", "headers", "Access-Control-Allow-Headers", "access-control-allow-headers");
  }

  lemma LowerCredentials()
    ensures Lower("Access-Control-Allow-Credentials") == "access-control-allow-credentials"
  {
    LowerOne("Credentials", "credentials", "Access-Control-Allow-Credentials", "access-control-allow-credentials");
  }


  lemma LowerOne(word: string, lower: string, name: string, lowered: string)
    requires |word| == |lower| > 0 && 'A' <= word[0] <= 'Z' && lower[0] == (word[0] as int + 32) as char
    requires forall i :: 1 <= i < |word| ==> 'a' <= word[i] <= 'z' && lower[i] == word[i]
    requires name == "Access-Control-Allow-" + word && lowered == "access-control-allow-" + lower
    ensures Lower(name) == lowered
  {
    LowerName(word, lower);
  }

  /** `Access-Control-Allow-` and a capitalised word, lower-cased. */
  lemma LowerName(word: string, lower: string)
    requires |word| == |lower| > 0 && 'A' <= word[0] <= 'Z' && lower[0] == (word[0] as int + 32) as char
    requires forall i :: 1 <= i < |word| ==> 'a' <= word[i] <= 'z' && lower[i] == word[i]
    ensures Lower("Access-Control-Allow-" + word) == "access-control-allow-" + lower
  {
    var s := "Access-Control-Allow-" + word;
    var t := "access-control-allow-" + lower;
    var p := "Access-Control-Allow-";
    assert |p| == 21;
    forall i | 0 <= i < |s|
      ensures Lower(s)[i] == t[i]
    {
      if i >= 21 {
        assert s[i] == word[i - 21] && t[i] == lower[i - 21];
      }
    }
  }

  /** The headers set one by one are the map of the whole. */
  lemma SetInTurn(h: map<string, HeaderValue>, allowed: string, credentials: bool)
    ensures var h1 := if allowed != "" then h["access-control-allow-origin" := HStr(allowed)] else h;
      var h2 := h1["access-control-allow-methods" := HStr("GET,POST,OPTIONS")]["access-control-allow-headers" := HStr("Content-Type")];
      var h3 := if credentials && allowed != "*" then h2["access-control-allow-credentials" := HStr("true")] else h2;
      h3 == h + CorsMap(CorsOptions(Fixed(allowed), credentials), None)
  {
  }

  /** The middleware returned by `cors(opts)`. */
  method Middleware(opts: CorsOptions, req: Request, res: Response) returns (o: Outcome)
    modifies res
    ensures (res.Value(), o) == Apply(opts, req.verb, req.Header("origin"), old(res.Value()))
  {
    var allowed := AllowedOrigin(opts.origin, req.Header("origin"));
    assert CorsMap(opts, req.Header("origin")) == CorsMap(CorsOptions(Fixed(allowed), opts.credentials), None);
    SetInTurn(res.headers, allowed, opts.credentials);
    LowerNames();
    var ok := true;
    if allowed != "" {
      ok := res.SetHeader("Access-Control-Allow-Origin", HStr(allowed));
    }
    if ok {
      ok := res.SetHeader("Access-Control-Allow-Methods", HStr("GET,POST,OPTIONS"));
      var _ := res.SetHeader("Access-Control-Allow-Headers", HStr("Content-Type"));
      if opts.credentials && allowed != "*" {
        var _ := res.SetHeader("Access-Control-Allow-Credentials", HStr("true"));
      }
    }
    if !ok {
      o := Throw(HeadersSent);
    } else if req.verb == "OPTIONS" {
      res.statusCode := 204;
      res.End("");
      o := Stop;
    } else {
      o := Advance;
    }
  }

  /** The options the server passes: the configured front-end origin, else any origin
      reflected; credentials only with a configured origin. */
  function ServerOptions(env: map<string, string>): CorsOptions {
    var allowed :=
      if "FRONTEND_ORIGIN" in env && env["FRONTEND_ORIGIN"] != "" then env["FRONTEND_ORIGIN"]
      else if "CORS_ORIGIN" in env && env["CORS_ORIGIN"] != "" then env["CORS_ORIGIN"]
      else "*";
    CorsOptions(if allowed == "*" then Reflect else Fixed(allowed), allowed != "*")
  }

  /** With the server's options, the origin header is always sent and is never the wildcard
      for a request that names its origin; credentials go only to the configured origin. */
  lemma ServerOrigins(env: map<string, string>, requestOrigin: Option<string>)
    ensures var opts := ServerOptions(env); var m := CorsMap(opts, requestOrigin);
      "access-control-allow-origin" in m
      && (requestOrigin.Some? && requestOrigin.value != "" && opts.origin.Reflect? ==>
            m["access-control-allow-origin"] == HStr(requestOrigin.value))
      && ("access-control-allow-credentials" in m <==> opts.origin.Fixed?)
  {
  }
}
