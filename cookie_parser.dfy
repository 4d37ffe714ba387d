/**
 * `cookie-parser`: the `Cookie` request header read into a mapping from cookie name to
 * percent-decoded value, and the middleware that stores it on the request.
 */
module CookieParser {
  import opened Base
  import opened Text
  import opened Http
  import Uri

  type Cookies = map<string, string>

  /** What `decodeURIComponent` throws, as the dispatcher's `catch` receives it. */
  const UriMalformed := Error(None, "URI malformed")

  /** What one `name=value` pair contributes: nothing for a pair without `=`, otherwise the
      trimmed text before the first `=` and the decoded, trimmed text after it. */
  function Entry(pair: string): Result<Option<(string, string)>, Uri.UriError> {
    var idx := IndexOf(pair, "=");
    if idx == -1 then Ok(None)
    else match Uri.Decode(Trim(pair[idx + 1..]))
      case Err(e) => Err(e)
      case Ok(v) => Ok(Some((Trim(pair[..idx]), v)))
  }

  /** One entry stored; `__proto__` cannot be set on a plain object. */
  function Store(list: Cookies, e: Option<(string, string)>): Cookies {
    match e
    case None => list
    case Some((key, v)) => if key == "__proto__" then list else list[key := v]
  }

  /** One pair added to the mapping. */
  function AddPair(list: Cookies, pair: string): Result<Cookies, Uri.UriError> {
    match Entry(pair)
    case Err(e) => Err(e)
    case Ok(e) => Ok(Store(list, e))
  }

  /** The pairs added in order; the first value that does not decode ends it with an error. */
  function AddPairs(list: Cookies, pairs: seq<string>): Result<Cookies, Uri.UriError>
    decreases |pairs|
  {
    if |pairs| == 0 then Ok(list)
    else match AddPair(list, pairs[0])
      case Err(e) => Err(e)
      case Ok(l) => AddPairs(l, pairs[1..])
  }

  /** `parseCookies(header)`. */
  function ParseCookies(header: string): Result<Cookies, Uri.UriError> {
    if header == "" then Ok(map[]) else AddPairs(map[], Split(header, ';'))
  }

  /** The loop of `parseCookies`. */
  method Parse(header: string) returns (r: Result<Cookies, Uri.UriError>)
    ensures r == ParseCookies(header)
  {
    if header == "" {
      return Ok(map[]);
    }
    var pairs := Split(header, ';');
    var list: Cookies := map[];
    var i := 0;
    while i < |pairs|
      invariant i <= |pairs|
      invariant AddPairs(map[], pairs) == AddPairs(list, pairs[i..])
      decreases |pairs| - i
    {
      assert pairs[i..][1..] == pairs[i + 1..];
      var e := Entry(pairs[i]);
      if e.Err? {
        return Err(e.error);
      }
      list := Store(list, e.value);
      i := i + 1;
    }
    return Ok(list);
  }

  // ---------------------------------------------------------------- properties

  /** The mapping built on top of `list` is `list` overridden by the mapping built from nothing. */
  function Over(list: Cookies, r: Result<Cookies, Uri.UriError>): Result<Cookies, Uri.UriError> {
    match r
    case Ok(m) => Ok(list + m)
    case Err(e) => Err(e)
  }

  lemma StoreOver(list: Cookies, e: Option<(string, string)>)
    ensures Store(list, e) == list + Store(map[], e)
  {
    assert list + map[] == list;
    if e.Some? && e.value.0 != "__proto__" {
      assert list + map[e.value.0 := e.value.1] == list[e.value.0 := e.value.1];
    }
  }

  lemma AddPairOver(list: Cookies, pair: string)
    ensures AddPair(list, pair) == Over(list, AddPair(map[], pair))
  {
    var e := Entry(pair);
    if e.Ok? {
      StoreOver(list, e.value);
    }
  }

  lemma MergeAssoc(a: Cookies, b: Cookies, c: Cookies)
    ensures (a + b) + c == a + (b + c)
  {
  }

  lemma MergeEmpty(a: Cookies)
    ensures a + map[] == a
  {
  }

  lemma {:induction false} AddPairsFrom(list: Cookies, pairs: seq<string>)
    ensures AddPairs(list, pairs) == Over(list, AddPairs(map[], pairs))
    decreases |pairs|
  {
    if |pairs| == 0 {
      MergeEmpty(list);
    } else {
      AddPairOver(list, pairs[0]);
      var r := AddPair(map[], pairs[0]);
      if r.Ok? {
        var m := r.value;
        AddPairsFrom(list + m, pairs[1..]);
        AddPairsFrom(m, pairs[1..]);
        var r' := AddPairs(map[], pairs[1..]);
        if r'.Ok? {
          MergeAssoc(list, m, r'.value);
        }
      }
    }
  }

  /** The rest of the pairs added after a first result, unless it was an error. */
  function AndThen(r: Result<Cookies, Uri.UriError>, pairs: seq<string>): Result<Cookies, Uri.UriError> {
    match r
    case Ok(l) => AddPairs(l, pairs)
    case Err(e) => Err(e)
  }

  lemma {:induction false} AddPairsAppend(list: Cookies, a: seq<string>, b: seq<string>)
    ensures AddPairs(list, a + b) == AndThen(AddPairs(list, a), b)
    decreases |a|
  {
    if |a| == 0 {
      assert a + b == b;
    } else {
      assert (a + b)[0] == a[0];
      assert (a + b)[1..] == a[1..] + b;
      var r := AddPair(list, a[0]);
      if r.Ok? {
        AddPairsAppend(r.value, a[1..], b);
      }
    }
  }

  /** The union of two results: both must succeed, and the right one wins on shared names. */
  function Union(x: Result<Cookies, Uri.UriError>, y: Result<Cookies, Uri.UriError>): Result<Cookies, Uri.UriError> {
    match x
    case Err(e) => Err(e)
    case Ok(m) => Over(m, y)
  }

  /** Two headers joined by `;` give the union of their mappings: for a name in both, the
      later occurrence wins. */
  lemma ParseJoined(h1: string, h2: string)
    requires h1 != ""
    ensures ParseCookies(h1 + ";" + h2) == Union(ParseCookies(h1), ParseCookies(h2))
  {
    SplitJoin(h1, h2, ';');
    assert h1 + ";" + h2 == h1 + [';'] + h2;
    AddPairsAppend(map[], Split(h1, ';'), Split(h2, ';'));
    var r := AddPairs(map[], Split(h1, ';'));
    if r.Ok? {
      var m := r.value;
      AddPairsFrom(m, Split(h2, ';'));
      if h2 == "" {
        SplitAbsent("", ';');
        assert AddPairs(map[], [""]) == Ok(map[]);
      }
    }
  }

  /** A header without `;` is a single pair. */
  lemma SinglePair(pair: string)
    requires ';' !in pair && pair != ""
    ensures ParseCookies(pair) == AddPair(map[], pair)
  {
    SplitAbsent(pair, ';');
    assert [pair][1..] == [];
    var r := AddPair(map[], pair);
    if r.Ok? {
      assert AddPairs(r.value, []) == Ok(r.value);
    }
  }

  lemma FirstEquals(name: string, rest: string)
    requires '=' !in name
    ensures Entry(name + "=" + rest) == match Uri.Decode(Trim(rest))
      case Ok(v) => Ok(Some((Trim(name), v)))
      case Err(e) => Err(e)
  {
    var pair := name + "=" + rest;
    assert pair[|name|] == '=' && pair[..|name|] == name && pair[|name| + 1..] == rest;
    IndexOfChar(pair, '=', |name|);
  }

  /** A lone pair splits at its first `=`: the value may itself hold `=`. */
  lemma OnePair(name: string, rest: string)
    requires ';' !in name && ';' !in rest && '=' !in name
    ensures ParseCookies(name + "=" + rest) == match Uri.Decode(Trim(rest))
      case Ok(v) => Ok(if Trim(name) == "__proto__" then map[] else map[Trim(name) := v])
      case Err(e) => Err(e)
  {
    var pair := name + "=" + rest;
    assert ';' !in pair;
    SinglePair(pair);
    FirstEquals(name, rest);
  }

  /** Round trip with `res.cookie`'s head: a name without `;`, `=` or surrounding white
      space, with an encoded value, reads back as that value. */
  lemma CookieRoundTrip(name: string, v: string)
    requires ';' !in name && '=' !in name && Trim(name) == name && name != "__proto__"
    ensures ParseCookies(name + "=" + Uri.Encode(v)) == Ok(map[name := v])
  {
    var e := Uri.Encode(v);
    Uri.EncodeAlphabet(v);
    assert ';' !in e;
    if e != [] {
      assert !IsSpace(e[0]) && !IsSpace(e[|e| - 1]);
    }
    TrimNoop(e);
    Uri.DecodeEncode(v);
    OnePair(name, e);
  }

  /** An absent or empty header gives no cookies. */
  lemma EmptyHeader()
    ensures ParseCookies("") == Ok(map[])
  {
  }

  /** `cookieParser()`: `req.cookies` from the `Cookie` header (or `''`); then `next()`. A value
      that does not decode throws from inside the middleware. */
  method Middleware(req: Request) returns (o: Outcome)
    modifies req
    ensures var r := ParseCookies(req.Header("cookie").GetOr(""));
      o == (if r.Ok? then Advance else Throw(UriMalformed))
      && req.cookies == (if r.Ok? then r.value else old(req.cookies))
    ensures req.Value() == old(req.Value()) && req.headers == old(req.headers) && req.query == old(req.query)
      && req.body == old(req.body) && req.session == old(req.session)
  {
    var r := Parse(req.Header("cookie").GetOr(""));
    if r.Ok? {
      req.cookies := r.value;
      o := Advance;
    } else {
      o := Throw(UriMalformed);
    }
  }
}
