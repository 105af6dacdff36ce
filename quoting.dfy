/**
 * `urllib.parse.quote(s)` with its defaults (`safe='/'`, UTF-8, strict
 * errors): every character outside the RFC 3986 section 2.3 unreserved set
 * and `/` is replaced by the `%XX` escapes of its UTF-8 bytes, with
 * upper-case hexadecimal digits.
 */
module Quoting {

  /** The characters `quote` never escapes (RFC 3986 section 2.3, unreserved). */
  predicate Unreserved(c: char)
  {
    || ('A' <= c <= 'Z') || ('a' <= c <= 'z') || ('0' <= c <= '9')
    || c == '_' || c == '.' || c == '-' || c == '~'
  }

  /** Unreserved, or the default `safe` character `/`. */
  predicate Kept(c: char)
  {
    Unreserved(c) || c == '/'
  }

  function HexDigit(d: nat): (c: char)
    requires d < 16
    ensures Unreserved(c)
  {
    "0123456789ABCDEF"[d]
  }

  /** The UTF-8 encoding of one Unicode scalar value. */
  function Utf8(c: char): (bytes: seq<nat>)
    ensures 1 <= |bytes| <= 4
    ensures |bytes| == 1 <==> (c as int) < 0x80
    ensures forall i :: 0 <= i < |bytes| ==> bytes[i] < 0x100
  {
    var n := c as int;
    if n < 0x80 then [n]
    else if n < 0x800 then [0xC0 + n / 0x40, 0x80 + n % 0x40]
    else if n < 0x1_0000 then [0xE0 + n / 0x1000, 0x80 + (n / 0x40) % 0x40, 0x80 + n % 0x40]
    else [0xF0 + n / 0x4_0000, 0x80 + (n / 0x1000) % 0x40, 0x80 + (n / 0x40) % 0x40, 0x80 + n % 0x40]
  }

  /** `%XX` for each byte. */
  function PercentEncode(bytes: seq<nat>): (s: string)
    requires forall i :: 0 <= i < |bytes| ==> bytes[i] < 0x100
    ensures |s| == 3 * |bytes|
    ensures forall i :: 0 <= i < |s| ==> Unreserved(s[i]) || s[i] == '%'
    decreases |bytes|
  {
    if |bytes| == 0 then []
    else ['%', HexDigit(bytes[0] / 16), HexDigit(bytes[0] % 16)] + PercentEncode(bytes[1..])
  }

  function QuoteChar(c: char): (s: string)
    ensures forall i :: 0 <= i < |s| ==> Kept(s[i]) || s[i] == '%'
    ensures Kept(c) <==> s == [c]
    ensures !Kept(c) ==> |s| >= 3
  {
    if Kept(c) then [c] else PercentEncode(Utf8(c))
  }

  /** `urllib.parse.quote(s)`. */
  function Quote(s: string): (r: string)
    ensures |r| >= |s|
    ensures forall i :: 0 <= i < |r| ==> Kept(r[i]) || r[i] == '%'
    decreases |s|
  {
    if |s| == 0 then [] else QuoteChar(s[0]) + Quote(s[1..])
  }

  /**
   * `quote` changes nothing exactly when every character is unreserved or
   * `/`; in particular the digits of an offset and the upper-case event
   * type values pass through unchanged.
   */
  lemma {:induction false} QuoteIdentity(s: string)
    ensures Quote(s) == s <==> forall i :: 0 <= i < |s| ==> Kept(s[i])
    decreases |s|
  {
    if |s| > 0 {
      QuoteIdentity(s[1..]);
      assert s == [s[0]] + s[1..];
      if Kept(s[0]) {
        assert (forall i :: 0 <= i < |s| ==> Kept(s[i]))
           <==> (forall i :: 0 <= i < |s[1..]| ==> Kept(s[1..][i]));
      } else {
        assert |Quote(s)| > |s|;
      }
    }
  }

  /** What `quote` produces never holds the query delimiters `?`, `&` or `=`. */
  lemma QuoteHasNoDelimiters(s: string)
    ensures '?' !in Quote(s) && '&' !in Quote(s) && '=' !in Quote(s)
  {
    var q := Quote(s);
    forall i | 0 <= i < |q| ensures q[i] != '?' && q[i] != '&' && q[i] != '=' {
      assert Kept(q[i]) || q[i] == '%';
    }
  }
}
