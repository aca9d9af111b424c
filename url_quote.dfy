/**
 * Percent-encoding as Python's `urllib.parse.quote(s, safe="")` performs it:
 * the text is encoded as UTF-8 and every byte outside the unreserved set of
 * section 2.3 of RFC 3986 (ASCII letters, digits, `-`, `.`, `_`, `~`) becomes
 * `%` followed by two upper-case hexadecimal digits (section 2.1 of RFC 3986).
 */
module UrlQuote {

  type Byte = x: int | 0 <= x < 256

  /** The UTF-8 encoding of one Unicode scalar value. */
  function Utf8Char(c: char): (r: seq<Byte>)
    ensures 1 <= |r| <= 4
    ensures (c as int < 0x80) <==> |r| == 1
    ensures c as int < 0x80 ==> r == [c as int]
    ensures |r| > 1 ==> forall k :: 0 <= k < |r| ==> r[k] >= 0x80
  {
    var cp := c as int;
    if cp < 0x80 then [cp]
    else if cp < 0x800 then [0xC0 + cp / 64, 0x80 + cp % 64]
    else if cp < 0x10000 then [0xE0 + cp / 4096, 0x80 + (cp / 64) % 64, 0x80 + cp % 64]
    else [0xF0 + cp / 262144, 0x80 + (cp / 4096) % 64, 0x80 + (cp / 64) % 64, 0x80 + cp % 64]
  }

  function Utf8(s: string): seq<Byte> {
    if s == [] then [] else Utf8Char(s[0]) + Utf8(s[1..])
  }

  /** Bytes `quote` never escapes: RFC 3986 unreserved characters. */
  predicate IsUnreserved(b: Byte) {
    || ('A' as int <= b <= 'Z' as int)
    || ('a' as int <= b <= 'z' as int)
    || ('0' as int <= b <= '9' as int)
    || b == '-' as int || b == '.' as int || b == '_' as int || b == '~' as int
  }

  predicate IsUpperHex(c: char) {
    ('0' <= c <= '9') || ('A' <= c <= 'F')
  }

  function HexDigit(n: int): (c: char)
    requires 0 <= n < 16
    ensures IsUpperHex(c)
  {
    if n < 10 then ('0' as int + n) as char else ('A' as int + n - 10) as char
  }

  /** Value of a hexadecimal digit, either case, as `unquote` reads it. */
  function HexValue(c: char): (n: int)
    requires ('0' <= c <= '9') || ('A' <= c <= 'F') || ('a' <= c <= 'f')
    ensures 0 <= n < 16
  {
    if c <= '9' then c as int - '0' as int
    else if c <= 'F' then c as int - 'A' as int + 10
    else c as int - 'a' as int + 10
  }

  predicate IsHex(c: char) {
    ('0' <= c <= '9') || ('A' <= c <= 'F') || ('a' <= c <= 'f')
  }

  function QuoteByte(b: Byte): string {
    if IsUnreserved(b) then [b as char] else ['%', HexDigit(b / 16), HexDigit(b % 16)]
  }

  function QuoteBytes(bs: seq<Byte>): string {
    if bs == [] then "" else QuoteByte(bs[0]) + QuoteBytes(bs[1..])
  }

  /** `quote(s, safe="")`. */
  function Quote(s: string): string {
    QuoteBytes(Utf8(s))
  }

  /** A character that may appear in the output of `quote(s, safe="")`. */
  predicate IsQuotedChar(c: char) {
    c == '%' || (c as int < 0x80 && IsUnreserved(c as int))
  }

  /**
   * `unquote_to_bytes`: each `%` followed by two hexadecimal digits becomes
   * that byte; every other character contributes its UTF-8 encoding.
   */
  function UnquoteToBytes(s: string): seq<Byte> {
    if s == [] then []
    else if s[0] == '%' && |s| >= 3 && IsHex(s[1]) && IsHex(s[2]) then
      [HexValue(s[1]) * 16 + HexValue(s[2])] + UnquoteToBytes(s[3..])
    else Utf8Char(s[0]) + UnquoteToBytes(s[1..])
  }

  lemma UnquoteQuoteByte(b: Byte, rest: string)
    ensures UnquoteToBytes(QuoteByte(b) + rest) == [b] + UnquoteToBytes(rest)
  {
    var s := QuoteByte(b) + rest;
    if IsUnreserved(b) {
      assert s[0] == b as char && s[1..] == rest;
    } else {
      assert s[0] == '%' && s[1] == HexDigit(b / 16) && s[2] == HexDigit(b % 16) && s[3..] == rest;
    }
  }

  /** Percent-decoding undoes `quote` exactly, byte for byte. */
  lemma {:induction false} UnquoteQuoteBytes(bs: seq<Byte>)
    ensures UnquoteToBytes(QuoteBytes(bs)) == bs
  {
    if bs != [] {
      UnquoteQuoteByte(bs[0], QuoteBytes(bs[1..]));
      UnquoteQuoteBytes(bs[1..]);
    }
  }

  /** The round trip of `quote` and `unquote_to_bytes` through UTF-8. */
  lemma UnquoteQuote(s: string)
    ensures UnquoteToBytes(Quote(s)) == Utf8(s)
  {
    UnquoteQuoteBytes(Utf8(s));
  }

  /**
   * The output holds only unreserved characters and `%`: no `/`, `:`, `?`,
   * `#` or space survives, so the result is a single URL path segment.
   */
  lemma {:induction false} QuoteBytesIsSafe(bs: seq<Byte>)
    ensures forall k :: 0 <= k < |QuoteBytes(bs)| ==> IsQuotedChar(QuoteBytes(bs)[k])
  {
    if bs != [] {
      QuoteBytesIsSafe(bs[1..]);
      var h := QuoteByte(bs[0]);
      var t := QuoteBytes(bs[1..]);
      assert QuoteBytes(bs) == h + t;
      forall k | 0 <= k < |h + t| ensures IsQuotedChar((h + t)[k]) {
        if k >= |h| {
          assert (h + t)[k] == t[k - |h|];
        }
      }
    }
  }

  lemma QuoteIsSafe(s: string)
    ensures forall k :: 0 <= k < |Quote(s)| ==> IsQuotedChar(Quote(s)[k])
  {
    QuoteBytesIsSafe(Utf8(s));
  }

  lemma {:induction false} Utf8Length(s: string)
    ensures |Utf8(s)| >= |s|
  {
    if s != [] {
      Utf8Length(s[1..]);
    }
  }

  lemma {:induction false} QuoteBytesLength(bs: seq<Byte>)
    ensures |QuoteBytes(bs)| >= |bs|
  {
    if bs != [] {
      QuoteBytesLength(bs[1..]);
    }
  }

  /** Quoting never shortens text, so only the empty text quotes to the empty text. */
  lemma QuoteLength(s: string)
    ensures |Quote(s)| >= |s|
    ensures Quote(s) == "" <==> s == ""
  {
    Utf8Length(s);
    QuoteBytesLength(Utf8(s));
  }

  /** Text made only of unreserved ASCII characters passes through `quote` unchanged. */
  lemma {:induction false} QuoteUnreservedIsIdentity(s: string)
    requires forall k :: 0 <= k < |s| ==> s[k] as int < 0x80 && IsUnreserved(s[k] as int)
    ensures Quote(s) == s
  {
    if s != [] {
      QuoteUnreservedIsIdentity(s[1..]);
      assert Utf8(s) == [s[0] as int] + Utf8(s[1..]);
      assert Quote(s) == [s[0]] + Quote(s[1..]);
    }
  }
}
