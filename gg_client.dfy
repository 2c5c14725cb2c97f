/** The GG Fusion REST client (`server/ggClient.js`): the same cached GET as the
    Matsui client, used cached for colour lists and uncached for formulas. */
module GgClient {
  import opened Wrappers
  import opened JsonValue
  import opened JsText
  import opened TtlCache

  const InvalidJson := "Invalid JSON from GG Fusion API"

  function GetKey(path: string): string { "GET:" + path }

  // ------------------------------------------------------------------
  // encodeURIComponent

  /** The characters `encodeURIComponent` leaves as they are. */
  predicate Unreserved(c: char) {
    'A' <= c <= 'Z' || 'a' <= c <= 'z' || IsDigit(c)
    || c == '-' || c == '_' || c == '.' || c == '!' || c == '~' || c == '*' || c == '\'' || c == '(' || c == ')'
  }

  /** The UTF-8 bytes of a code point. */
  function Utf8(c: char): (bs: seq<nat>)
    ensures 1 <= |bs| <= 4 && forall i | 0 <= i < |bs| :: bs[i] < 256
  {
    var n := c as int;
    if n < 0x80 then [n]
    else if n < 0x800 then [0xC0 + n / 64, 0x80 + n % 64]
    else if n < 0x10000 then [0xE0 + n / 4096, 0x80 + n / 64 % 64, 0x80 + n % 64]
    else [0xF0 + n / 262144, 0x80 + n / 4096 % 64, 0x80 + n / 64 % 64, 0x80 + n % 64]
  }

  /** An upper-case hex digit. */
  function UpperHexDigit(d: nat): (c: char)
    requires d < 16
    ensures IsHexDigit(c) && HexDigitValue(c) == d && !('a' <= c <= 'z')
  {
    UpperChar(HexDigitChar(d))
  }

  /** `%XX`: a byte as a percent sign and two upper-case hex digits. */
  function Escape(b: nat): (r: string)
    requires b < 256
    ensures |r| == 3 && r[0] == '%' && IsHexDigit(r[1]) && IsHexDigit(r[2])
    ensures 16 * HexDigitValue(r[1]) + HexDigitValue(r[2]) == b
  {
    ['%', UpperHexDigit(b / 16), UpperHexDigit(b % 16)]
  }

  /** The escapes of a byte sequence, in order. */
  function PercentBytes(bs: seq<nat>): (r: string)
    requires forall i | 0 <= i < |bs| :: bs[i] < 256
  {
    if bs == [] then [] else PercentBytes(bs[..|bs| - 1]) + Escape(bs[|bs| - 1])
  }

  lemma {:induction false} PercentBytesChars(bs: seq<nat>)
    requires forall i | 0 <= i < |bs| :: bs[i] < 256
    ensures |PercentBytes(bs)| == 3 * |bs|
    ensures forall i | 0 <= i < |PercentBytes(bs)| :: PercentBytes(bs)[i] == '%' || IsHexDigit(PercentBytes(bs)[i])
  {
    if bs != [] {
      PercentBytesChars(bs[..|bs| - 1]);
    }
  }

  function EncodeChar(c: char): string {
    if Unreserved(c) then [c] else PercentBytes(Utf8(c))
  }

  /** `encodeURIComponent(s)` */
  function EncodeUriComponent(s: string): string {
    if s == [] then [] else EncodeUriComponent(s[..|s| - 1]) + EncodeChar(s[|s| - 1])
  }

  /** A character of an encoded component. */
  predicate EncodedChar(c: char) { Unreserved(c) || c == '%' || IsHexDigit(c) }

  /** An encoded code is one path segment: it holds only unreserved characters and
      the characters of `%XX` escapes. */
  lemma EncodeCharChars(c: char)
    ensures forall i | 0 <= i < |EncodeChar(c)| :: EncodedChar(EncodeChar(c)[i])
  {
    if !Unreserved(c) {
      PercentBytesChars(Utf8(c));
    }
  }

  lemma {:induction false} EncodeIsSegment(s: string)
    ensures forall i | 0 <= i < |EncodeUriComponent(s)| :: EncodedChar(EncodeUriComponent(s)[i])
  {
    var e := EncodeUriComponent(s);
    if s != [] {
      var prev, last := EncodeUriComponent(s[..|s| - 1]), EncodeChar(s[|s| - 1]);
      EncodeIsSegment(s[..|s| - 1]);
      EncodeCharChars(s[|s| - 1]);
      assert e == prev + last;
      forall i | 0 <= i < |e| ensures EncodedChar(e[i]) {
        if i < |prev| {
          assert e[i] == prev[i];
        } else {
          assert e[i] == last[i - |prev|];
        }
      }
    }
  }

  /** In particular no `/`, `?` or `#`. */
  lemma EncodeNoDelimiters(s: string)
    ensures '/' !in EncodeUriComponent(s) && '?' !in EncodeUriComponent(s) && '#' !in EncodeUriComponent(s)
  {
    EncodeIsSegment(s);
    assert !EncodedChar('/') && !EncodedChar('?') && !EncodedChar('#');
  }

  /** A code made of unreserved characters is used as it is. */
  lemma {:induction false} EncodeUnreserved(s: string)
    requires forall i | 0 <= i < |s| :: Unreserved(s[i])
    ensures EncodeUriComponent(s) == s
  {
    if s != [] {
      EncodeUnreserved(s[..|s| - 1]);
      assert s == s[..|s| - 1] + [s[|s| - 1]];
    }
  }

  /** The client's module state: the `cache` map. */
  class Client {
    var cache: Store

    constructor ()
      ensures cache == map[]
    {
      cache := map[];
    }

    /** `ggGet(path, { useCache })` at time `now`; `response` is how the request would
        end, used only when a request is made. */
    method GgGet(path: string, useCache: bool, now: int, response: Response)
      returns (outcome: Outcome, requested: bool)
      modifies this
      ensures (outcome, requested, cache) == CachedGet(old(cache), GetKey(path), useCache, now, response, InvalidJson)
    {
      if useCache {
        var cached := Lookup(cache, GetKey(path), now);
        if Truthy(cached) {
          return Resolved(cached), false;
        }
      }
      requested := true;
      match response
      case Failed(e) =>
        outcome := Rejected(e);
      case Received(None, _) =>
        outcome := Rejected(JStr(InvalidJson));
      case Received(Some(parsed), at) =>
        if useCache {
          cache := Set(cache, GetKey(path), parsed, at);
        }
        outcome := Resolved(Some(parsed));
    }

    /** `getGGColors(category)`: cached under `GET:colors/<category>`. */
    method GetGGColors(category: string, now: int, response: Response)
      returns (outcome: Outcome, requested: bool)
      modifies this
      ensures (outcome, requested, cache) ==
        CachedGet(old(cache), "GET:colors/" + category, true, now, response, InvalidJson)
    {
      assert GetKey("colors/" + category) == "GET:colors/" + category;
      outcome, requested := GgGet("colors/" + category, true, now, response);
    }

    /** `getGGFormula(code, category)`: never cached, always a request. */
    method GetGGFormula(code: string, category: string, now: int, response: Response)
      returns (outcome: Outcome, requested: bool)
      modifies this
      ensures cache == old(cache) && requested
      ensures outcome == CachedGet(old(cache), GetKey("formulas/" + EncodeUriComponent(code) + "/" + category),
                                   false, now, response, InvalidJson).0
    {
      outcome, requested := GgGet("formulas/" + EncodeUriComponent(code) + "/" + category, false, now, response);
      UncachedGet(old(cache), GetKey("formulas/" + EncodeUriComponent(code) + "/" + category), now, response, InvalidJson);
    }
  }
}
