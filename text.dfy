/** The JavaScript string operations the core relies on, on `seq<char>`. */
module Text {
  import opened Base

  /** ECMAScript WhiteSpace and LineTerminator code points: the set that
      `String.prototype.trim` removes and that a regular expression's `\s` matches. */
  predicate IsSpace(c: char) {
    c == '\t' || c == '\n' || c == '\U{000B}' || c == '\U{000C}' || c == '\r' || c == ' '
    || c == '\U{00A0}' || c == '\U{1680}' || ('\U{2000}' <= c <= '\U{200A}')
    || c == '\U{2028}' || c == '\U{2029}' || c == '\U{202F}' || c == '\U{205F}'
    || c == '\U{3000}' || c == '\U{FEFF}'
  }

  predicate IsDigit(c: char) { '0' <= c <= '9' }

  /** `\w` of a non-Unicode regular expression. */
  predicate IsWordChar(c: char) {
    ('a' <= c <= 'z') || ('A' <= c <= 'Z') || IsDigit(c) || c == '_'
  }

  predicate NoSpaces(s: string) {
    forall i :: 0 <= i < |s| ==> !IsSpace(s[i])
  }

  /** `s.trimStart()`. */
  function TrimStart(s: string): (r: string)
    ensures |r| <= |s| && r == s[|s| - |r|..]
    ensures r == [] || !IsSpace(r[0])
    ensures forall i :: 0 <= i < |s| - |r| ==> IsSpace(s[i])
  {
    if |s| > 0 && IsSpace(s[0]) then TrimStart(s[1..]) else s
  }

  /** `s.trimEnd()`. */
  function TrimEnd(s: string): (r: string)
    ensures |r| <= |s| && r == s[..|r|]
    ensures r == [] || !IsSpace(Last(r))
    ensures forall i :: |r| <= i < |s| ==> IsSpace(s[i])
  {
    if |s| > 0 && IsSpace(s[|s| - 1]) then TrimEnd(s[..|s| - 1]) else s
  }

  /** `s.trim()`: `s` without its leading and trailing white space. */
  function Trim(s: string): (r: string)
  {
    TrimEnd(TrimStart(s))
  }

  /** The trimmed string is the middle part of `s`, and all that was cut is white space. */
  lemma TrimSpec(s: string)
    ensures exists a, b ::
              (0 <= a <= b <= |s| && Trim(s) == s[a..b]
               && (forall i :: 0 <= i < a ==> IsSpace(s[i]))
               && (forall i :: b <= i < |s| ==> IsSpace(s[i])))
    ensures Trim(s) == [] || (!IsSpace(Trim(s)[0]) && !IsSpace(Last(Trim(s))))
  {
    var t := TrimStart(s);
    var a := |s| - |t|;
    var r := TrimEnd(t);
    var b := a + |r|;
    assert t == s[a..];
    assert r == t[..|r|];
    assert Trim(s) == s[a..b];
    forall i | b <= i < |s|
      ensures IsSpace(s[i])
    {
      assert s[i] == t[i - a];
    }
    if r != [] {
      assert r[0] == t[0];
    }
  }

  /** Trimming a string that neither starts nor ends with white space changes nothing. */
  lemma TrimNoop(s: string)
    requires s == [] || (!IsSpace(s[0]) && !IsSpace(Last(s)))
    ensures Trim(s) == s
  {
  }

  /** A trimmed, non-empty string neither starts nor ends with white space. */
  lemma TrimmedEnds(s: string)
    requires Trim(s) == s && s != []
    ensures !IsSpace(s[0]) && !IsSpace(Last(s))
  {
    var a := TrimStart(s);
    assert |a| == |s|;
    assert a == s;
  }

  /** Trimming is idempotent. */
  lemma TrimTrim(s: string)
    ensures Trim(Trim(s)) == Trim(s)
  {
    TrimSpec(s);
    TrimNoop(Trim(s));
  }

  /** `pat` occurs in `s` at index `i`. */
  predicate OccursAt(s: string, pat: string, i: int) {
    0 <= i && i + |pat| <= |s| && s[i..i + |pat|] == pat
  }

  /** `s.indexOf(pat, from)`: the first occurrence at or after `from`, or -1. */
  function IndexFrom(s: string, pat: string, from: nat): (r: int)
    ensures r == -1 || (from <= r && OccursAt(s, pat, r))
    ensures forall i :: from <= i && (r == -1 || i < r) ==> !OccursAt(s, pat, i)
    decreases |s| - from
  {
    if from + |pat| > |s| then -1
    else if s[from..from + |pat|] == pat then from
    else IndexFrom(s, pat, from + 1)
  }

  /** `s.indexOf(pat)`. */
  function IndexOf(s: string, pat: string): (r: int)
    ensures r == -1 || OccursAt(s, pat, r)
    ensures forall i :: 0 <= i && (r == -1 || i < r) ==> !OccursAt(s, pat, i)
  {
    IndexFrom(s, pat, 0)
  }

  /** `s.includes(pat)`. */
  predicate Contains(s: string, pat: string) {
    IndexOf(s, pat) != -1
  }

  lemma ContainsIff(s: string, pat: string)
    ensures Contains(s, pat) <==> exists i :: OccursAt(s, pat, i)
  {
  }

  /** `s.startsWith(p)`. */
  predicate StartsWith(s: string, p: string) {
    p <= s
  }

  /** `s.split(sep)` for a one-character separator. */
  function Split(s: string, sep: char): (parts: seq<string>)
    ensures |parts| >= 1
    ensures forall k :: 0 <= k < |parts| ==> sep !in parts[k]
    decreases |s|
  {
    var k := IndexOf(s, [sep]);
    if k == -1 then
      assert forall i :: 0 <= i < |s| ==> !OccursAt(s, [sep], i) && s[i..i + 1] == [s[i]];
      [s]
    else
      assert s[..k] == s[..k];
      assert forall i :: 0 <= i < k ==> !OccursAt(s, [sep], i) && s[i..i + 1] == [s[i]];
      [s[..k]] + Split(s[k + 1..], sep)
  }

  /** Where `indexOf` finds a one-character pattern: the first position holding it, or -1
      when it is absent. */
  lemma CharIndex(s: string, c: char)
    ensures var k := IndexOf(s, [c]);
      (k == -1 <==> c !in s)
      && (k != -1 ==> 0 <= k < |s| && s[k] == c && forall i :: 0 <= i < k ==> s[i] != c)
  {
    var k := IndexOf(s, [c]);
    var bound := if k == -1 then |s| else k;
    forall i | 0 <= i < bound
      ensures s[i] != c
    {
      assert !OccursAt(s, [c], i);
      assert s[i..i + 1] == [s[i]];
    }
    if k != -1 {
      assert s[k..k + 1] == [c];
      assert s[k] == c;
    }
  }

  lemma IndexOfChar(s: string, c: char, k: int)
    requires 0 <= k < |s| && s[k] == c && forall i :: 0 <= i < k ==> s[i] != c
    ensures IndexOf(s, [c]) == k
  {
    CharIndex(s, c);
  }

  /** Splitting at a separator that is not there gives the whole text. */
  lemma SplitAbsent(s: string, sep: char)
    requires sep !in s
    ensures Split(s, sep) == [s]
  {
    CharIndex(s, sep);
  }

  /** Splitting text joined by the separator splits each side. */
  lemma {:induction false} SplitJoin(a: string, b: string, sep: char)
    ensures Split(a + [sep] + b, sep) == Split(a, sep) + Split(b, sep)
    decreases |a|
  {
    var s := a + [sep] + b;
    CharIndex(a, sep);
    var k := IndexOf(a, [sep]);
    if k != -1 {
      IndexOfChar(s, sep, k);
      assert s[k + 1..] == a[k + 1..] + [sep] + b;
      assert s[..k] == a[..k];
      SplitJoin(a[k + 1..], b, sep);
    } else {
      IndexOfChar(s, sep, |a|);
      assert s[..|a|] == a && s[|a| + 1..] == b;
    }
  }

  /** `parts.join(sep)`. */
  function Join(parts: seq<string>, sep: string): string {
    if |parts| == 0 then ""
    else if |parts| == 1 then parts[0]
    else parts[0] + sep + Join(parts[1..], sep)
  }

  /** Splitting loses nothing: joining the pieces with the separator gives the input back. */
  lemma {:induction false} JoinSplit(s: string, sep: char)
    ensures Join(Split(s, sep), [sep]) == s
    decreases |s|
  {
    var k := IndexOf(s, [sep]);
    SplitAt(s, sep);
    if k != -1 {
      var rest := s[k + 1..];
      JoinSplit(rest, sep);
      JoinHead(s[..k], Split(rest, sep), [sep]);
    }
  }

  lemma SplitAt(s: string, sep: char)
    ensures var k := IndexOf(s, [sep]);
      (k == -1 ==> Split(s, sep) == [s])
      && (k != -1 ==>
            0 <= k < |s| && s == s[..k] + [sep] + s[k + 1..]
            && Split(s, sep) == [s[..k]] + Split(s[k + 1..], sep))
  {
    CharIndex(s, sep);
  }

  lemma JoinHead(p: string, ps: seq<string>, sep: string)
    requires |ps| >= 1
    ensures Join([p] + ps, sep) == p + sep + Join(ps, sep)
  {
    assert ([p] + ps)[1..] == ps;
  }

  /** Pieces free of the separator, joined by it, split back into the same pieces. */
  lemma {:induction false} SplitJoined(parts: seq<string>, sep: char)
    requires |parts| >= 1
    requires forall k :: 0 <= k < |parts| ==> sep !in parts[k]
    ensures Split(Join(parts, [sep]), sep) == parts
    decreases |parts|
  {
    SplitAbsent(parts[0], sep);
    if |parts| > 1 {
      var rest := parts[1..];
      assert forall k :: 0 <= k < |rest| ==> rest[k] == parts[k + 1];
      SplitJoined(rest, sep);
      var tail := Join(rest, [sep]);
      assert Join(parts, [sep]) == parts[0] + [sep] + tail;
      SplitJoin(parts[0], tail, sep);
      assert [parts[0]] + rest == parts;
    }
  }

  /** ASCII lower-casing of one character. */
  function LowerChar(c: char): char {
    if 'A' <= c <= 'Z' then (c as int + 32) as char else c
  }

  /** `s.toLowerCase()`, restricted to ASCII letters. */
  function Lower(s: string): (r: string)
    ensures |r| == |s|
    ensures forall i :: 0 <= i < |s| ==> r[i] == LowerChar(s[i])
  {
    seq(|s|, i requires 0 <= i < |s| => LowerChar(s[i]))
  }

  /** The decimal digits of a natural number, most significant first. */
  function Digits(n: nat): (r: string)
    ensures |r| >= 1
    ensures forall i :: 0 <= i < |r| ==> IsDigit(r[i])
  {
    if n < 10 then [('0' as int + n) as char] else Digits(n / 10) + [('0' as int + n % 10) as char]
  }

  function DigitOf(c: char): (d: nat)
    requires IsDigit(c)
    ensures d < 10
  {
    c as int - '0' as int
  }

  /** The value of a non-empty run of decimal digits. */
  function DigitsValue(s: string): (n: nat)
    requires forall i :: 0 <= i < |s| ==> IsDigit(s[i])
  {
    if |s| == 0 then 0
    else
      assert IsDigit(s[|s| - 1]);
      10 * DigitsValue(s[..|s| - 1]) + DigitOf(s[|s| - 1])
  }

  lemma {:induction false} DigitsRoundTrip(n: nat)
    ensures DigitsValue(Digits(n)) == n
  {
    if n >= 10 {
      DigitsRoundTrip(n / 10);
      var d := Digits(n);
      assert d[..|d| - 1] == Digits(n / 10);
    }
  }

  /** `String(n)` for an integer `n`. */
  function Decimal(n: int): (r: string)
    ensures |r| >= 1
  {
    if n < 0 then "-" + Digits(-n) else Digits(n)
  }

  /** The chunks of a stream joined in order (`Buffer.concat(chunks).toString()`). */
  function Concat(chunks: seq<string>): (s: string)
    ensures |chunks| == 1 ==> s == chunks[0]
  {
    if |chunks| == 0 then "" else chunks[0] + Concat(chunks[1..])
  }

  /** Concatenation peels chunks off the front. */
  lemma ConcatFrom(chunks: seq<string>, i: nat)
    requires i < |chunks|
    ensures Concat(chunks[i..]) == chunks[i] + Concat(chunks[i + 1..])
  {
    assert chunks[i..][1..] == chunks[i + 1..];
  }
}
