/**
 * `dotenv`: the parser of `.env` files (one `KEY=value` per line, `#` comments, optional
 * quotes) and `config()`, which merges the parsed variables into the process environment
 * without overriding any variable already set. The file system is a parameter: `config()`
 * receives the file's contents, or `None` when the file does not exist.
 */
module Dotenv {
  import opened Base
  import opened Text

  type Env = map<string, string>

  predicate IsQuote(c: char) {
    c == '\'' || c == '"'
  }

  /** `value.replace(/^['"]|['"]$/g, '')`: one quote dropped at each end, either kind. */
  function Unquote(v: string): (r: string)
    ensures |r| <= |v| && |v| - 2 <= |r|
  {
    var a := if |v| > 0 && IsQuote(v[0]) then v[1..] else v;
    if |a| > 0 && IsQuote(a[|a| - 1]) then a[..|a| - 1] else a
  }

  /** A value in matching quotes reads back as what is between them, whatever that holds. */
  lemma UnquoteQuoted(q: char, s: string)
    requires IsQuote(q)
    ensures Unquote([q] + s + [q]) == s
  {
    var v := [q] + s + [q];
    assert v[1..] == s + [q];
    assert (s + [q])[..|s|] == s;
  }

  /** A value without a quote at either end stays as it is. */
  lemma UnquotePlain(v: string)
    requires v == [] || (!IsQuote(v[0]) && !IsQuote(v[|v| - 1]))
    ensures Unquote(v) == v
  {
  }

  /** What one line contributes: nothing for a blank line, a `#` comment or a line without
      `=`; otherwise the trimmed key and the trimmed, unquoted value. */
  function Entry(line: string): Option<(string, string)> {
    var trimmed := Trim(line);
    if trimmed == "" || StartsWith(trimmed, "#") then None
    else
      var idx := IndexOf(trimmed, "=");
      if idx == -1 then None
      else Some((Trim(trimmed[..idx]), Unquote(Trim(trimmed[idx + 1..]))))
  }

  /** One entry stored; `__proto__` cannot be set on a plain object. */
  function Store(env: Env, e: Option<(string, string)>): Env {
    match e
    case None => env
    case Some((key, v)) => if key == "__proto__" then env else env[key := v]
  }

  /** The lines stored in order: a later line for the same key wins. */
  function AddLines(env: Env, lines: seq<string>): Env
    decreases |lines|
  {
    if |lines| == 0 then env else AddLines(Store(env, Entry(lines[0])), lines[1..])
  }

  /** `parse(content)`. */
  function ParseEnv(content: string): Env {
    AddLines(map[], Split(content, '\n'))
  }

  /** The loop of `parse`. */
  method Parse(content: string) returns (env: Env)
    ensures env == ParseEnv(content)
  {
    var lines := Split(content, '\n');
    env := map[];
    var i := 0;
    while i < |lines|
      invariant i <= |lines|
      invariant AddLines(map[], lines) == AddLines(env, lines[i..])
      decreases |lines| - i
    {
      assert lines[i..][1..] == lines[i + 1..];
      env := Store(env, Entry(lines[i]));
      i := i + 1;
    }
  }

  // ---------------------------------------------------------------- properties of parse

  lemma StoreOver(env: Env, e: Option<(string, string)>)
    ensures Store(env, e) == env + Store(map[], e)
  {
    assert env + map[] == env;
    if e.Some? && e.value.0 != "__proto__" {
      assert env + map[e.value.0 := e.value.1] == env[e.value.0 := e.value.1];
    }
  }

  lemma MergeAssoc(a: Env, b: Env, c: Env)
    ensures (a + b) + c == a + (b + c)
  {
  }

  /** Lines stored on top of `env` override it, and each other in order. */
  lemma {:induction false} AddLinesOver(env: Env, lines: seq<string>)
    ensures AddLines(env, lines) == env + AddLines(map[], lines)
    decreases |lines|
  {
    if |lines| == 0 {
      assert env + map[] == env;
    } else {
      var e := Entry(lines[0]);
      StoreOver(env, e);
      AddLinesOver(env + Store(map[], e), lines[1..]);
      AddLinesOver(Store(map[], e), lines[1..]);
      MergeAssoc(env, Store(map[], e), AddLines(map[], lines[1..]));
    }
  }

  lemma {:induction false} AddLinesAppend(env: Env, a: seq<string>, b: seq<string>)
    ensures AddLines(env, a + b) == AddLines(AddLines(env, a), b)
    decreases |a|
  {
    if |a| == 0 {
      assert a + b == b;
    } else {
      assert (a + b)[0] == a[0];
      assert (a + b)[1..] == a[1..] + b;
      AddLinesAppend(Store(env, Entry(a[0])), a[1..], b);
    }
  }

  /** Two files' contents, one after the other: the variables of both, the later file
      winning on a shared key. */
  lemma ParseJoined(c1: string, c2: string)
    ensures ParseEnv(c1 + "\n" + c2) == ParseEnv(c1) + ParseEnv(c2)
  {
    SplitJoin(c1, c2, '\n');
    assert c1 + "\n" + c2 == c1 + ['\n'] + c2;
    AddLinesAppend(map[], Split(c1, '\n'), Split(c2, '\n'));
    AddLinesOver(ParseEnv(c1), Split(c2, '\n'));
  }

  /** Content without a line break is a single line. */
  lemma SingleLine(line: string)
    requires '\n' !in line
    ensures ParseEnv(line) == Store(map[], Entry(line))
  {
    SplitAbsent(line, '\n');
    var one: seq<string> := [line];
    assert one[0] == line && one[1..] == [];
    assert AddLines(Store(map[], Entry(line)), []) == Store(map[], Entry(line));
  }

  /** A blank or comment line has no entry. */
  lemma CommentEntry(line: string)
    requires Trim(line) == "" || Trim(line)[0] == '#'
    ensures Entry(line) == None
  {
    var t := Trim(line);
    if t != "" {
      assert t[..1] == "#";
      assert StartsWith(t, "#");
    }
  }

  /** A line that is blank or a comment after trimming adds nothing. */
  lemma CommentLine(c1: string, line: string, c2: string)
    requires '\n' !in line && (Trim(line) == "" || Trim(line)[0] == '#')
    ensures ParseEnv(c1 + "\n" + line + "\n" + c2) == ParseEnv(c1 + "\n" + c2)
  {
    CommentEntry(line);
    SingleLine(line);
    EmptyBetween(c1, line, c2);
  }

  lemma EmptyBetween(c1: string, line: string, c2: string)
    requires ParseEnv(line) == map[]
    ensures ParseEnv(c1 + "\n" + line + "\n" + c2) == ParseEnv(c1 + "\n" + c2)
  {
    ParseJoined(c1 + "\n" + line, c2);
    ParseJoined(c1, line);
    ParseJoined(c1, c2);
    MergeEmptyMiddle(ParseEnv(c1), ParseEnv(line), ParseEnv(c2));
  }

  lemma MergeEmptyMiddle(a: Env, l: Env, b: Env)
    requires l == map[]
    ensures (a + l) + b == a + b
  {
    assert a + l == a;
  }

  /** A plain `KEY=value` line is read as `KEY` and the unquoted value. */
  lemma DefinitionEntry(key: string, value: string)
    requires '=' !in key && key != "" && Trim(key) == key && key[0] != '#' && Trim(value) == value
    ensures Entry(key + "=" + value) == Some((key, Unquote(value)))
  {
    var line := key + "=" + value;
    LineTrimmed(key, value);
    assert line[0] == key[0] && line[0] != '#';
    NotComment(line);
    assert line[|key|] == '=' && line[..|key|] == key && line[|key| + 1..] == value;
    IndexOfChar(line, '=', |key|);
  }

  lemma NotComment(t: string)
    requires t != "" && t[0] != '#'
    ensures !StartsWith(t, "#")
  {
    assert "#"[0] == '#';
  }

  /** A file of one plain `KEY=value` line defines `KEY`, the value unquoted. */
  lemma DefinitionLine(key: string, value: string)
    requires '\n' !in key && '\n' !in value && '=' !in key
    requires key != "" && key != "__proto__" && Trim(key) == key && key[0] != '#'
    requires Trim(value) == value
    ensures ParseEnv(key + "=" + value) == map[key := Unquote(value)]
  {
    var line := key + "=" + value;
    assert '\n' !in line;
    SingleLine(line);
    DefinitionEntry(key, value);
  }

  lemma LineTrimmed(key: string, value: string)
    requires key != "" && Trim(key) == key && Trim(value) == value
    ensures Trim(key + "=" + value) == key + "=" + value
  {
    var line := key + "=" + value;
    TrimmedEnds(key);
    assert line[0] == key[0];
    if value == [] {
      assert Last(line) == '=';
    } else {
      TrimmedEnds(value);
      assert Last(line) == Last(value);
    }
    TrimNoop(line);
  }

  // ---------------------------------------------------------------- config

  /** The process environment after `config()`: a variable already set is never replaced;
      one the file adds is set to the file's value. */
  function MergeEnv(env: Env, parsed: Env): (r: Env)
    ensures r.Keys == env.Keys + parsed.Keys
    ensures forall k :: k in env ==> r[k] == env[k]
    ensures forall k :: k in parsed && k !in env ==> r[k] == parsed[k]
  {
    map k | k in env.Keys + parsed.Keys :: if k in env then env[k] else parsed[k]
  }

  /** Loading the same file again changes nothing more. */
  lemma MergeIdempotent(env: Env, parsed: Env)
    ensures MergeEnv(MergeEnv(env, parsed), parsed) == MergeEnv(env, parsed)
  {
    var once := MergeEnv(env, parsed);
    var twice := MergeEnv(once, parsed);
    assert twice.Keys == once.Keys;
    forall k | k in twice
      ensures twice[k] == once[k]
    {
    }
  }

  /** Merging is the environment with the file underneath it. */
  lemma MergeIsUnion(env: Env, parsed: Env)
    ensures MergeEnv(env, parsed) == parsed + env
  {
  }

  /** The variables of `parsed` whose names are in `keys`. */
  function Restrict(parsed: Env, keys: set<string>): Env {
    map k | k in parsed && k in keys :: parsed[k]
  }

  lemma MergeNone(env: Env, parsed: Env)
    ensures MergeEnv(env, Restrict(parsed, {})) == env
  {
  }

  lemma RestrictAll(parsed: Env, keys: set<string>)
    requires parsed.Keys - keys == {}
    ensures Restrict(parsed, keys) == parsed
  {
    forall k | k in parsed
      ensures k in keys
    {
      assert k !in parsed.Keys - keys;
    }
  }

  /** One more variable of the file merged in. */
  lemma MergeStep(env: Env, parsed: Env, done: set<string>, key: string)
    requires key in parsed && key !in done
    ensures var before := MergeEnv(env, Restrict(parsed, done));
      MergeEnv(env, Restrict(parsed, done + {key}))
        == if key in before then before else before[key := parsed[key]]
  {
  }

  /** What `config()` returns: `{}` when there is no file, else `{ parsed }`. */
  datatype Loaded = NoFile | Parsed(parsed: Env)

  /** `process.env`. */
  class ProcessEnv {
    var vars: Env

    constructor (vars: Env)
      ensures this.vars == vars
    {
      this.vars := vars;
    }

    /** `config()`, given the file's contents or `None` when it does not exist. */
    method Config(file: Option<string>) returns (r: Loaded)
      modifies this
      ensures r == match file case None => NoFile case Some(c) => Parsed(ParseEnv(c))
      ensures vars == if file.None? then old(vars) else MergeEnv(old(vars), ParseEnv(file.value))
    {
      if file.None? {
        return NoFile;
      }
      var parsed := Parse(file.value);
      var todo := parsed.Keys;
      ghost var done: set<string> := {};
      MergeNone(old(vars), parsed);
      while todo != {}
        invariant done <= parsed.Keys && todo == parsed.Keys - done
        invariant vars == MergeEnv(old(vars), Restrict(parsed, done))
        decreases |todo|
      {
        var key :| key in todo;
        MergeStep(old(vars), parsed, done, key);
        if key !in vars {
          vars := vars[key := parsed[key]];
        }
        done := done + {key};
        todo := todo - {key};
      }
      RestrictAll(parsed, done);
      r := Parsed(parsed);
    }
  }
}
