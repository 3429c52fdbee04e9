/**
 * `Client#url_encode` (lib/simple_spark/client.rb:45-47): the string's raw
 * bytes, each byte outside `[A-Za-z0-9_.-]` replaced by `%` and two
 * upper-case hex digits. This is percent-encoding as in section 2.1 of
 * RFC 3986, keeping the unreserved set of section 2.3 except `~`.
 */
module PercentEncoding {
  import opened Wrappers

  newtype byte = x: int | 0 <= x < 256

  /** The bytes the regular expression `[^a-zA-Z0-9_\-.]` does not match. */
  predicate Unreserved(b: byte) {
    || ('A' as int <= b as int <= 'Z' as int)
    || ('a' as int <= b as int <= 'z' as int)
    || ('0' as int <= b as int <= '9' as int)
    || b as int == '_' as int
    || b as int == '-' as int
    || b as int == '.' as int
  }

  /** The same set, as characters of the encoded text. */
  predicate UnreservedChar(c: char) {
    || ('A' <= c <= 'Z')
    || ('a' <= c <= 'z')
    || ('0' <= c <= '9')
    || c == '_' || c == '-' || c == '.'
  }

  function CharOf(b: byte): char {
    b as int as char
  }

  /** The digits `%02X` prints: `0`-`9` and upper-case `A`-`F`. */
  predicate UpperHexDigit(c: char) {
    ('0' <= c <= '9') || ('A' <= c <= 'F')
  }

  /** Upper-case hex digit, as `%02X` prints it. */
  function HexDigit(d: int): (c: char)
    requires 0 <= d < 16
    ensures UpperHexDigit(c) && HexValue(c) == Some(d)
    ensures UnreservedChar(c) && c != '_' && c != '-' && c != '.'
  {
    if d < 10 then ('0' as int + d) as char else ('A' as int + d - 10) as char
  }

  /** Value of a hex digit of either case. */
  function HexValue(c: char): Option<int> {
    if '0' <= c <= '9' then Some(c as int - '0' as int)
    else if 'A' <= c <= 'F' then Some(c as int - 'A' as int + 10)
    else if 'a' <= c <= 'f' then Some(c as int - 'a' as int + 10)
    else None
  }

  lemma HexValueOfDigit(d: int)
    requires 0 <= d < 16
    ensures HexValue(HexDigit(d)) == Some(d)
  {
  }

  /** The replacement the block of the `gsub` makes for one byte. */
  function EncodeByte(b: byte): (r: string)
    ensures Unreserved(b) ==> r == [CharOf(b)]
    ensures !Unreserved(b) ==> |r| == 3 && r[0] == '%'
    ensures !Unreserved(b) ==> UpperHexDigit(r[1]) && UpperHexDigit(r[2])
    ensures !Unreserved(b) ==> HexValue(r[1]) == Some(b as int / 16) && HexValue(r[2]) == Some(b as int % 16)
  {
    if Unreserved(b) then [CharOf(b)]
    else
      HexValueOfDigit(b as int / 16);
      HexValueOfDigit(b as int % 16);
      ['%', HexDigit(b as int / 16), HexDigit(b as int % 16)]
  }

  /** Percent-encodes every byte, left to right. */
  function UrlEncode(s: seq<byte>): (r: string)
    ensures forall i :: 0 <= i < |r| ==> UnreservedChar(r[i]) || r[i] == '%'
  {
    if |s| == 0 then "" else EncodeByte(s[0]) + UrlEncode(s[1..])
  }

  /** Number of bytes the encoding replaces. */
  function CountEncoded(s: seq<byte>): nat {
    if |s| == 0 then 0 else (if Unreserved(s[0]) then 0 else 1) + CountEncoded(s[1..])
  }

  /** The characters whose codes are the given bytes. */
  function Chars(s: seq<byte>): (r: string)
    ensures |r| == |s|
    ensures forall i :: 0 <= i < |s| ==> r[i] == CharOf(s[i])
  {
    seq(|s|, i requires 0 <= i < |s| => CharOf(s[i]))
  }

  /** The bytes of ASCII text (its UTF-8 encoding is its character codes). */
  function Ascii(t: string): (r: seq<byte>)
    requires forall i :: 0 <= i < |t| ==> t[i] as int < 128
    ensures |r| == |t| && Chars(r) == t
  {
    seq(|t|, i requires 0 <= i < |t| => t[i] as int as byte)
  }

  /**
   * The inverse: unreserved characters stand for themselves, `%` and two hex
   * digits for one byte; anything else is not the output of the encoder.
   */
  function PercentDecode(t: string): Option<seq<byte>>
    decreases |t|
  {
    if |t| == 0 then Some([])
    else if t[0] == '%' then
      if |t| >= 3 && HexValue(t[1]).Some? && HexValue(t[2]).Some? then
        match PercentDecode(t[3..])
        case Some(rest) => Some([(HexValue(t[1]).value * 16 + HexValue(t[2]).value) as byte] + rest)
        case None => None
      else None
    else if UnreservedChar(t[0]) then
      match PercentDecode(t[1..])
      case Some(rest) => Some([t[0] as int as byte] + rest)
      case None => None
    else None
  }

  /** The output is the input plus two characters for every replaced byte. */
  lemma {:induction false} UrlEncodeLength(s: seq<byte>)
    ensures |UrlEncode(s)| == |s| + 2 * CountEncoded(s)
  {
    if |s| > 0 {
      UrlEncodeLength(s[1..]);
    }
  }

  /** Encoding works byte by byte, so it distributes over concatenation. */
  lemma {:induction false} UrlEncodeAppend(a: seq<byte>, b: seq<byte>)
    ensures UrlEncode(a + b) == UrlEncode(a) + UrlEncode(b)
  {
    if |a| > 0 {
      assert (a + b)[1..] == a[1..] + b;
      UrlEncodeAppend(a[1..], b);
    } else {
      assert a + b == b;
    }
  }

  /** Input made of unreserved bytes only is left as it is. */
  lemma {:induction false} UrlEncodeKeepsUnreserved(s: seq<byte>)
    requires forall i :: 0 <= i < |s| ==> Unreserved(s[i])
    ensures UrlEncode(s) == Chars(s)
  {
    if |s| > 0 {
      UrlEncodeKeepsUnreserved(s[1..]);
      assert Chars(s) == [CharOf(s[0])] + Chars(s[1..]);
    }
  }

  lemma DecodeEncodedByte(b: byte, rest: string)
    ensures PercentDecode(EncodeByte(b) + rest) ==
      match PercentDecode(rest)
      case Some(r) => Some([b] + r)
      case None => None
  {
    var t := EncodeByte(b) + rest;
    if Unreserved(b) {
      assert t[1..] == rest;
      assert t[0] as int as byte == b;
    } else {
      assert t[3..] == rest;
      assert t[1] == EncodeByte(b)[1] && t[2] == EncodeByte(b)[2];
      assert (HexValue(t[1]).value * 16 + HexValue(t[2]).value) as byte == b;
    }
  }

  /** Percent-decoding the output gives back exactly the input bytes. */
  lemma {:induction false} DecodeUrlEncode(s: seq<byte>)
    ensures PercentDecode(UrlEncode(s)) == Some(s)
  {
    if |s| > 0 {
      DecodeUrlEncode(s[1..]);
      DecodeEncodedByte(s[0], UrlEncode(s[1..]));
      assert [s[0]] + s[1..] == s;
    }
  }

  /** Distinct identifiers stay distinct once encoded. */
  lemma UrlEncodeInjective(a: seq<byte>, b: seq<byte>)
    ensures UrlEncode(a) == UrlEncode(b) <==> a == b
  {
    if UrlEncode(a) == UrlEncode(b) {
      DecodeUrlEncode(a);
      DecodeUrlEncode(b);
    }
  }

  /** `t` is a single path segment, free of `?`, that percent-decodes to `id`. */
  predicate EncodedSegment(t: string, id: seq<byte>) {
    '/' !in t && '?' !in t && PercentDecode(t) == Some(id)
  }

  /**
   * The encoded identifier never holds a `/` or a `?`, so it stays one path
   * segment, and it decodes back to the identifier.
   */
  lemma UrlEncodeIsSegment(id: seq<byte>)
    ensures EncodedSegment(UrlEncode(id), id)
  {
    DecodeUrlEncode(id);
  }

  /** `prefix` followed by one segment that decodes to `id`. */
  predicate PrefixedSegment(prefix: string, path: string, id: seq<byte>) {
    |prefix| <= |path| && path[..|prefix|] == prefix && EncodedSegment(path[|prefix|..], id)
  }

  /** A resource path built from a prefix and an encoded identifier names that identifier and nothing else. */
  lemma PrefixedEncodedSegment(prefix: string, id: seq<byte>)
    ensures PrefixedSegment(prefix, prefix + UrlEncode(id), id)
  {
    UrlEncodeIsSegment(id);
    assert (prefix + UrlEncode(id))[|prefix|..] == UrlEncode(id);
  }

  /** A space becomes `%20` (not `+`) and `~` becomes `%7E`. */
  lemma UrlEncodeSpaceAndTilde()
    ensures UrlEncode(Ascii(" ")) == "%20"
    ensures UrlEncode(Ascii("~")) == "%7E"
  {
    assert Ascii(" ")[0] == 32;
    assert Ascii("~")[0] == 126;
  }

  /** A domain name of unreserved characters is a fixed point. */
  lemma UrlEncodeDomainExample()
    ensures UrlEncode(Ascii("example1.com")) == "example1.com"
  {
    var t := "example1.com";
    assert t == ['e', 'x', 'a', 'm', 'p', 'l', 'e', '1', '.', 'c', 'o', 'm'];
    var d := Ascii(t);
    assert forall i :: 0 <= i < |d| ==> Unreserved(d[i]);
    UrlEncodeKeepsUnreserved(d);
  }

  /** A `/` is encoded, so `a/b` becomes the single segment `a%2Fb`. */
  lemma UrlEncodeSlashExample()
    ensures UrlEncode(Ascii("a/b")) == "a%2Fb"
  {
    var s := Ascii("a/b");
    assert s == [97] + [47] + [98];
    UrlEncodeAppend([97] + [47], [98]);
    UrlEncodeAppend([97], [47]);
  }

  /** Between two unreserved runs, an `@` (byte 64) is the only byte encoded, as `%40`. */
  lemma UrlEncodeAtSign(local: seq<byte>, domain: seq<byte>)
    requires forall i :: 0 <= i < |local| ==> Unreserved(local[i])
    requires forall i :: 0 <= i < |domain| ==> Unreserved(domain[i])
    ensures UrlEncode(local + [64] + domain) == Chars(local) + "%40" + Chars(domain)
  {
    UrlEncodeAppend(local + [64], domain);
    UrlEncodeAppend(local, [64]);
    UrlEncodeKeepsUnreserved(local);
    UrlEncodeKeepsUnreserved(domain);
    assert UrlEncode([64]) == "%40" by {
      assert !Unreserved(64);
      assert EncodeByte(64) == ['%', HexDigit(4), HexDigit(0)];
    }
  }

  /** In `rcpt_1@example.com` only the `@` is encoded. */
  lemma UrlEncodeEmailExample()
    ensures UrlEncode(Ascii("rcpt_1") + [64] + Ascii("example.com")) == "rcpt_1%40example.com"
  {
    var local := Ascii("rcpt_1");
    var domain := Ascii("example.com");
    UnreservedText("rcpt_1");
    UnreservedText("example.com");
    UrlEncodeAtSign(local, domain);
    assert "rcpt_1" + "%40" + "example.com" == "rcpt_1%40example.com";
  }

  /** Text made of letters, digits, `_`, `-` and `.` is ASCII and its bytes are unreserved. */
  lemma UnreservedText(t: string)
    requires forall i :: 0 <= i < |t| ==> UnreservedChar(t[i])
    ensures forall i :: 0 <= i < |t| ==> t[i] as int < 128
    ensures forall i :: 0 <= i < |Ascii(t)| ==> Unreserved(Ascii(t)[i])
  {
  }
}
