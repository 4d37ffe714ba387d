/**
 * `encodeURIComponent` and `decodeURIComponent` (sections 19.2.6.4 and 19.2.6.2 of
 * ECMA-262): UTF-8 octets written as `%XX` with upper-case hexadecimal digits, and
 * the inverse that rejects malformed escapes and invalid UTF-8 with a URIError.
 */
module Uri {
  import opened Base

  type Byte = b: int | 0 <= b < 256

  /** The URIError that `decodeURIComponent` throws. */
  datatype UriError = UriError

  /** The characters `encodeURIComponent` leaves as they are. */
  predicate Unreserved(c: char) {
    ('a' <= c <= 'z') || ('A' <= c <= 'Z') || ('0' <= c <= '9')
    || c == '-' || c == '_' || c == '.' || c == '!' || c == '~' || c == '*'
    || c == '\'' || c == '(' || c == ')'
  }

  /** The UTF-8 encoding of one code point (section 3 of RFC 3629). */
  function Utf8(c: char): (r: seq<Byte>)
    ensures 1 <= |r| <= 4
  {
    var cp := c as int;
    if cp < 0x80 then [cp]
    else if cp < 0x800 then [0xC0 + cp / 64, 0x80 + cp % 64]
    else if cp < 0x10000 then [0xE0 + cp / 4096, 0x80 + (cp / 64) % 64, 0x80 + cp % 64]
    else [0xF0 + cp / 262144, 0x80 + (cp / 4096) % 64, 0x80 + (cp / 64) % 64, 0x80 + cp % 64]
  }

  function UpperHex(d: int): char
    requires 0 <= d < 16
  {
    if d < 10 then ('0' as int + d) as char else ('A' as int + d - 10) as char
  }

  function Percent(bytes: seq<Byte>): (r: string)
    ensures |r| == 3 * |bytes|
  {
    if |bytes| == 0 then ""
    else ['%', UpperHex(bytes[0] / 16), UpperHex(bytes[0] % 16)] + Percent(bytes[1..])
  }

  function EncodeChar(c: char): string {
    if Unreserved(c) then [c] else Percent(Utf8(c))
  }

  /** `encodeURIComponent(s)`. Dafny strings hold no lone surrogates, so it never throws. */
  function Encode(s: string): (r: string)
    ensures |r| >= |s|
  {
    if |s| == 0 then "" else EncodeChar(s[0]) + Encode(s[1..])
  }

  function HexValue(c: char): Option<nat> {
    if '0' <= c <= '9' then Some(c as int - '0' as int)
    else if 'a' <= c <= 'f' then Some(c as int - 'a' as int + 10)
    else if 'A' <= c <= 'F' then Some(c as int - 'A' as int + 10)
    else None
  }

  /** One `%XX` escape at the start of `s`. */
  function PctByte(s: string): (r: Option<(Byte, string)>)
    ensures r.Some? ==> |s| >= 3 && r.value.1 == s[3..]
  {
    if |s| < 3 || s[0] != '%' then None
    else match (HexValue(s[1]), HexValue(s[2]))
      case (Some(h), Some(l)) => if h < 16 && l < 16 then Some((h * 16 + l, s[3..])) else None
      case _ => None
  }

  /** `k` escaped continuation octets `10xxxxxx`, folded into `acc` six bits at a time. */
  function Continuation(s: string, k: nat, acc: int): (r: Option<(int, string)>)
    ensures r.Some? ==> |r.value.1| <= |s| - 3 * k
    decreases k
  {
    if k == 0 then Some((acc, s))
    else match PctByte(s)
      case None => None
      case Some((b, rest)) =>
        if 0x80 <= b < 0xC0 then Continuation(rest, k - 1, acc * 64 + (b as int - 0x80)) else None
  }

  /** The number of octets a UTF-8 sequence with leading octet `b` has, if `b` can lead one. */
  function LeadLength(b: Byte): nat {
    if b < 0x80 then 1
    else if 0xC0 <= b < 0xE0 then 2
    else if 0xE0 <= b < 0xF0 then 3
    else if 0xF0 <= b < 0xF8 then 4
    else 0
  }

  function LeadBits(b: Byte): int {
    if b < 0xE0 then b as int - 0xC0 else if b < 0xF0 then b as int - 0xE0 else b as int - 0xF0
  }

  /** The smallest code point an `n`-octet sequence may encode; below it the form is overlong. */
  function MinCodePoint(n: nat): int {
    if n == 2 then 0x80 else if n == 3 then 0x800 else 0x10000
  }

  predicate ScalarValue(cp: int) {
    0 <= cp <= 0x10FFFF && !(0xD800 <= cp < 0xE000)
  }

  /** `decodeURIComponent(s)`: `Err` where JavaScript throws a URIError. */
  function Decode(s: string): (r: Result<string, UriError>)
    decreases |s|
  {
    if |s| == 0 then Ok("")
    else if s[0] != '%' then
      match Decode(s[1..])
      case Ok(t) => Ok([s[0]] + t)
      case Err(e) => Err(e)
    else match PctByte(s)
      case None => Err(UriError)
      case Some((b, rest)) =>
        var n := LeadLength(b);
        if n == 1 then
          match Decode(rest)
          case Ok(t) => Ok([b as char] + t)
          case Err(e) => Err(e)
        else if n == 0 then Err(UriError)
        else match Continuation(rest, n - 1, LeadBits(b))
          case None => Err(UriError)
          case Some((cp, rest')) =>
            if cp < MinCodePoint(n) || !ScalarValue(cp) then Err(UriError)
            else
              match Decode(rest')
              case Ok(t) => Ok([cp as char] + t)
              case Err(e) => Err(e)
  }

  // ---------------------------------------------------------------- properties

  /** The encoding uses only unreserved characters and `%`. */
  lemma {:induction false} EncodeAlphabet(s: string)
    ensures forall i :: 0 <= i < |Encode(s)| ==>
      (Unreserved(Encode(s)[i]) || Encode(s)[i] == '%')
  {
    if |s| > 0 {
      EncodeAlphabet(s[1..]);
      PercentAlphabet(Utf8(s[0]));
    }
  }

  lemma {:induction false} PercentAlphabet(bytes: seq<Byte>)
    ensures forall i :: 0 <= i < |Percent(bytes)| ==>
      (Percent(bytes)[i] == '%' || ('0' <= Percent(bytes)[i] <= '9') || ('A' <= Percent(bytes)[i] <= 'F'))
  {
    if |bytes| > 0 {
      PercentAlphabet(bytes[1..]);
    }
  }

  lemma PctByteRoundTrip(b: Byte, rest: string)
    ensures PctByte(['%', UpperHex(b / 16), UpperHex(b % 16)] + rest) == Some((b, rest))
  {
    var s := ['%', UpperHex(b / 16), UpperHex(b % 16)] + rest;
    assert s[3..] == rest;
  }

  /** Decoding continuation octets written by `Percent` recovers their payload bits. */
  lemma {:induction false} ContinuationRoundTrip(bytes: seq<Byte>, rest: string, acc: int)
    requires forall i :: 0 <= i < |bytes| ==> 0x80 <= bytes[i] < 0xC0
    ensures Continuation(Percent(bytes) + rest, |bytes|, acc) == Some((Fold(bytes, acc), rest))
    decreases |bytes|
  {
    if |bytes| > 0 {
      var b := bytes[0];
      var tail := Percent(bytes[1..]) + rest;
      assert Percent(bytes) + rest == ['%', UpperHex(b / 16), UpperHex(b % 16)] + tail;
      PctByteRoundTrip(b, tail);
      var acc' := acc * 64 + (b as int - 0x80);
      ContinuationRoundTrip(bytes[1..], rest, acc');
      assert Continuation(Percent(bytes) + rest, |bytes|, acc) == Continuation(tail, |bytes| - 1, acc');
      assert Fold(bytes, acc) == Fold(bytes[1..], acc');
    } else {
      assert Percent(bytes) + rest == rest;
    }
  }

  /** The code point bits carried by continuation octets, appended to `acc`. */
  function Fold(bytes: seq<Byte>, acc: int): int
    decreases |bytes|
  {
    if |bytes| == 0 then acc else Fold(bytes[1..], acc * 64 + (bytes[0] as int - 0x80))
  }

  lemma Split64(x: int)
    requires x >= 0
    ensures x == (x / 64) * 64 + x % 64 && 0 <= x % 64 < 64
  {
  }

  /** Decoding the UTF-8 octets of `c`, as `Decode` does, gives back the code point of `c`. */
  lemma Utf8Decodes(c: char)
    ensures var u := Utf8(c);
      LeadLength(u[0]) == |u|
      && (|u| == 1 ==> u[0] == c as int)
      && (|u| > 1 ==>
            (forall i :: 1 <= i < |u| ==> 0x80 <= u[i] < 0xC0)
            && Fold(u[1..], LeadBits(u[0])) == c as int
            && MinCodePoint(|u|) <= c as int)
  {
    var cp := c as int;
    var u := Utf8(c);
    if cp < 0x80 {
    } else if cp < 0x800 {
      Split64(cp);
      assert u[1..] == [0x80 + cp % 64];
    } else if cp < 0x10000 {
      Split64(cp);
      Split64(cp / 64);
      assert cp / 4096 == (cp / 64) / 64;
      var hi, mid, lo := cp / 4096, (cp / 64) % 64, cp % 64;
      assert hi * 64 + mid == cp / 64;
      assert (cp / 64) * 64 + lo == cp;
      assert LeadBits(u[0]) == hi;
      assert u[1..] == [0x80 + mid, 0x80 + lo];
      assert u[1..][1..] == [0x80 + lo];
      assert Fold(u[1..][1..][1..], (hi * 64 + mid) * 64 + lo) == cp;
      assert Fold(u[1..][1..], hi * 64 + mid) == cp;
    } else {
      Split64(cp);
      Split64(cp / 64);
      Split64(cp / 4096);
      assert cp / 4096 == (cp / 64) / 64;
      assert cp / 262144 == (cp / 4096) / 64;
      assert cp <= 0x10FFFF;
      assert u[1..] == [0x80 + (cp / 4096) % 64, 0x80 + (cp / 64) % 64, 0x80 + cp % 64];
      assert u[1..][1..] == [0x80 + (cp / 64) % 64, 0x80 + cp % 64];
      assert u[1..][1..][1..] == [0x80 + cp % 64];
      var top, hi, mid, lo := cp / 262144, (cp / 4096) % 64, (cp / 64) % 64, cp % 64;
      assert top * 64 + hi == cp / 4096;
      assert (cp / 4096) * 64 + mid == cp / 64;
      assert (cp / 64) * 64 + lo == cp;
      assert LeadBits(u[0]) == top;
      assert Fold(u[1..][1..][1..], (top * 64 + hi) * 64 + mid) == cp;
      assert Fold(u[1..][1..], top * 64 + hi) == cp;
    }
  }

  lemma PercentCons(bytes: seq<Byte>, rest: string)
    requires |bytes| > 0
    ensures Percent(bytes) + rest
      == ['%', UpperHex(bytes[0] / 16), UpperHex(bytes[0] % 16)] + (Percent(bytes[1..]) + rest)
  {
  }

  lemma DecodePlain(c: char, rest: string)
    requires c != '%'
    ensures Decode([c] + rest) == match Decode(rest)
      case Ok(t) => Ok([c] + t)
      case Err(e) => Err(e)
  {
    assert ([c] + rest)[1..] == rest;
  }

  lemma DecodeSingle(b: Byte, rest: string)
    requires LeadLength(b) == 1
    ensures Decode(Percent([b]) + rest) == match Decode(rest)
      case Ok(t) => Ok([b as char] + t)
      case Err(e) => Err(e)
  {
    PercentCons([b], rest);
    assert Percent([b][1..]) + rest == rest;
    PctByteRoundTrip(b, rest);
  }

  lemma DecodeSequence(u: seq<Byte>, rest: string, cp: int)
    requires 1 < |u| && LeadLength(u[0]) == |u|
    requires forall i :: 1 <= i < |u| ==> 0x80 <= u[i] < 0xC0
    requires Fold(u[1..], LeadBits(u[0])) == cp && MinCodePoint(|u|) <= cp && ScalarValue(cp)
    ensures Decode(Percent(u) + rest) == match Decode(rest)
      case Ok(t) => Ok([cp as char] + t)
      case Err(e) => Err(e)
  {
    var after := Percent(u[1..]) + rest;
    PercentCons(u, rest);
    PctByteRoundTrip(u[0], after);
    ContinuationRoundTrip(u[1..], rest, LeadBits(u[0]));
  }

  /** One encoded character decodes back to itself, whatever follows it. */
  lemma EncodeCharRoundTrip(c: char, rest: string)
    ensures Decode(EncodeChar(c) + rest) == match Decode(rest)
      case Ok(t) => Ok([c] + t)
      case Err(e) => Err(e)
  {
    if Unreserved(c) {
      DecodePlain(c, rest);
    } else {
      var u := Utf8(c);
      Utf8Decodes(c);
      if |u| == 1 {
        assert u == [u[0]];
        DecodeSingle(u[0], rest);
        assert (u[0] as char) == c;
      } else {
        DecodeSequence(u, rest, c as int);
        assert (c as int) as char == c;
      }
    }
  }

  /** `decodeURIComponent(encodeURIComponent(s)) === s`. */
  lemma {:induction false} DecodeEncode(s: string)
    ensures Decode(Encode(s)) == Ok(s)
  {
    if |s| > 0 {
      DecodeEncode(s[1..]);
      EncodeCharRoundTrip(s[0], Encode(s[1..]));
      assert [s[0]] + s[1..] == s;
    }
  }

  /** A `%` that starts no valid escape is a URIError, as in `decodeURIComponent('%')`. */
  lemma LonePercentFails(rest: string)
    requires |rest| == 0 || HexValue(rest[0]).None?
    ensures Decode("%" + rest).Err?
  {
  }

  /** An overlong encoding is a URIError, as in `decodeURIComponent('%C0%80')`. */
  lemma OverlongFails()
    ensures Decode("%C0%80").Err?
  {
    var s := "%C0%80";
    var t := s[3..];
    assert t == "%80" && t[3..] == "";
    assert PctByte(s) == Some((0xC0, t));
    assert PctByte(t) == Some((0x80, ""));
    assert Continuation(t, 1, 0) == Some((0, ""));
  }
}
