/** Python's `urllib.parse.quote(s)` with its defaults: the string is encoded
    as UTF-8 and every byte outside the unreserved set of RFC 3986 section 2.3
    and the default safe character `/` is written as `%XX` with upper-case hex
    digits (percent-encoding, RFC 3986 section 2.1). `Unquote` is the strict
    inverse a server applies to read the value back. */
module UrlQuote {
  import opened Envelope

  type byte = x: int | 0 <= x < 256

  /** RFC 3986 unreserved characters: ALPHA / DIGIT / "-" / "." / "_" / "~". */
  predicate IsUnreserved(b: int) {
    (0x41 <= b <= 0x5A) || (0x61 <= b <= 0x7A) || (0x30 <= b <= 0x39) ||
    b == 0x2D || b == 0x2E || b == 0x5F || b == 0x7E
  }

  /** Bytes `quote` leaves as they are: the unreserved ones and `/`. */
  predicate IsSafe(b: int) {
    IsUnreserved(b) || b == 0x2F
  }

  /** Characters `quote` can produce. */
  predicate IsQuotedChar(c: char) {
    IsSafe(c as int) || c == '%'
  }

  function HexDigit(n: int): (c: char)
    requires 0 <= n < 16
    ensures IsUnreserved(c as int)
  {
    if n < 10 then (0x30 + n) as char else (0x41 + n - 10) as char
  }

  predicate IsHexDigit(c: char) {
    ('0' <= c <= '9') || ('A' <= c <= 'F') || ('a' <= c <= 'f')
  }

  function HexValue(c: char): (n: int)
    requires IsHexDigit(c)
    ensures 0 <= n < 16
  {
    if '0' <= c <= '9' then c as int - 0x30
    else if 'A' <= c <= 'F' then c as int - 0x41 + 10
    else c as int - 0x61 + 10
  }

  /** The UTF-8 encoding of one Unicode scalar value (RFC 3629 section 3). */
  function Utf8Char(c: char): (bs: seq<byte>)
    ensures 1 <= |bs| <= 4
    ensures |bs| == 1 <==> c as int < 0x80
    ensures |bs| == 1 ==> bs[0] == c as int
  {
    var n := c as int;
    if n < 0x80 then [n]
    else if n < 0x800 then [0xC0 + n / 64, 0x80 + n % 64]
    else if n < 0x10000 then [0xE0 + n / 4096, 0x80 + n / 64 % 64, 0x80 + n % 64]
    else [0xF0 + n / 262144, 0x80 + n / 4096 % 64, 0x80 + n / 64 % 64, 0x80 + n % 64]
  }

  /** `s.encode("utf-8")`. */
  function Utf8(s: string): seq<byte> {
    if s == [] then [] else Utf8Char(s[0]) + Utf8(s[1..])
  }

  /** The length of the UTF-8 sequence a lead byte announces; 0 when `b`
      cannot start one. */
  function LeadLength(b: byte): nat {
    if b < 0x80 then 1
    else if 0xC0 <= b < 0xE0 then 2
    else if 0xE0 <= b < 0xF0 then 3
    else if 0xF0 <= b < 0xF8 then 4
    else 0
  }

  predicate IsContinuation(b: byte) {
    0x80 <= b < 0xC0
  }

  /** The smallest code point a sequence of `n` bytes may carry: anything
      below it has a shorter form and is rejected as overlong. */
  function MinScalar(n: int): int {
    if n == 2 then 0x80 else if n == 3 then 0x800 else if n == 4 then 0x10000 else 0
  }

  /** The scalar value one UTF-8 sequence stands for, if it stands for one
      in its shortest form. */
  function ScalarOf(chunk: seq<byte>): Option<char>
    requires 1 <= |chunk| <= 4
  {
    var cp: int :=
      if |chunk| == 1 then chunk[0] as int
      else if |chunk| == 2 then (chunk[0] as int - 0xC0) * 64 + (chunk[1] as int - 0x80)
      else if |chunk| == 3 then
        (chunk[0] as int - 0xE0) * 4096 + (chunk[1] as int - 0x80) * 64 + (chunk[2] as int - 0x80)
      else
        (chunk[0] as int - 0xF0) * 262144 + (chunk[1] as int - 0x80) * 4096 +
        (chunk[2] as int - 0x80) * 64 + (chunk[3] as int - 0x80);
    if (forall i | 1 <= i < |chunk| :: IsContinuation(chunk[i])) &&
       ((0 <= cp < 0xD800) || (0xE000 <= cp < 0x110000)) &&
       cp >= MinScalar(|chunk|)
    then Some(cp as char)
    else None
  }

  /** Strict UTF-8 decoding: overlong forms, surrogates, values above
      U+10FFFF and truncated sequences are all refused. */
  function Utf8Decode(bs: seq<byte>): Option<string>
    decreases |bs|
  {
    if bs == [] then Some([])
    else
      var n := LeadLength(bs[0]);
      if n == 0 || |bs| < n then None
      else match (ScalarOf(bs[..n]), Utf8Decode(bs[n..]))
        case (Some(c), Some(rest)) => Some([c] + rest)
        case _ => None
  }

  /** The 6-bit groups of a code point add back up to it. */
  lemma SixBitGroups(n: nat)
    ensures n / 64 * 64 + n % 64 == n
    ensures n / 4096 * 4096 + n / 64 % 64 * 64 + n % 64 == n
    ensures n / 262144 * 262144 + n / 4096 % 64 * 4096 + n / 64 % 64 * 64 + n % 64 == n
  {
    var q := n / 64;
    var q2 := q / 64;
    assert n == q * 64 + n % 64;
    assert q == q2 * 64 + q % 64;
    assert n / 4096 == q2;
    assert q2 == q2 / 64 * 64 + q2 % 64;
    assert n / 262144 == q2 / 64;
  }

  /** Decoding one encoded character gives it back. */
  lemma Utf8CharDecodes(c: char)
    ensures LeadLength(Utf8Char(c)[0]) == |Utf8Char(c)|
    ensures forall i | 1 <= i < |Utf8Char(c)| :: IsContinuation(Utf8Char(c)[i])
    ensures ScalarOf(Utf8Char(c)) == Some(c)
  {
    SixBitGroups(c as int);
  }

  lemma {:induction false} Utf8RoundTrip(s: string)
    ensures Utf8Decode(Utf8(s)) == Some(s)
  {
    if s != [] {
      var head := Utf8Char(s[0]);
      var bs := Utf8(s);
      Utf8CharDecodes(s[0]);
      assert bs == head + Utf8(s[1..]);
      assert bs[0] == head[0];
      assert bs[..|head|] == head;
      assert bs[|head|..] == Utf8(s[1..]);
      Utf8RoundTrip(s[1..]);
      assert [s[0]] + s[1..] == s;
    }
  }

  /** Division by 64 takes `q * 64 + r` apart again. */
  lemma SixBitSplit(q: nat, r: nat)
    requires r < 64
    ensures (q * 64 + r) / 64 == q && (q * 64 + r) % 64 == r
  {
  }

  /** Two 6-bit groups under a lead value read back by division. */
  lemma GroupsOfThree(n: int, lead: nat, g1: nat, g2: nat)
    requires g1 < 64 && g2 < 64 && n == lead * 4096 + g1 * 64 + g2
    ensures n / 4096 == lead && n / 64 % 64 == g1 && n % 64 == g2
  {
    var hi := lead * 64 + g1;
    assert n == hi * 64 + g2;
    SixBitSplit(hi, g2);
    SixBitSplit(lead, g1);
  }

  /** Three 6-bit groups under a lead value read back by division. */
  lemma GroupsOfFour(n: int, lead: nat, g1: nat, g2: nat, g3: nat)
    requires g1 < 64 && g2 < 64 && g3 < 64 && n == lead * 262144 + g1 * 4096 + g2 * 64 + g3
    ensures n / 262144 == lead && n / 4096 % 64 == g1 && n / 64 % 64 == g2 && n % 64 == g3
  {
    var hi := lead * 64 + g1;
    var mid := hi * 64 + g2;
    assert n == mid * 64 + g3;
    SixBitSplit(mid, g3);
    SixBitSplit(hi, g2);
    SixBitSplit(lead, g1);
  }

  /** A sequence the decoder accepts is the one encoding of its scalar. */
  lemma ScalarOfShortest(chunk: seq<byte>, c: char)
    requires 1 <= |chunk| <= 4 && LeadLength(chunk[0]) == |chunk|
    requires ScalarOf(chunk) == Some(c)
    ensures Utf8Char(c) == chunk
  {
    var n := c as int;
    if |chunk| == 2 {
      SixBitSplit(chunk[0] - 0xC0, chunk[1] - 0x80);
    } else if |chunk| == 3 {
      GroupsOfThree(n, chunk[0] - 0xE0, chunk[1] - 0x80, chunk[2] - 0x80);
    } else if |chunk| == 4 {
      GroupsOfFour(n, chunk[0] - 0xF0, chunk[1] - 0x80, chunk[2] - 0x80, chunk[3] - 0x80);
    }
  }

  /** One step of a successful decoding: the first sequence gives the first
      character and the rest decodes to the rest. */
  lemma Utf8DecodeStep(bs: seq<byte>, s: string)
    requires bs != [] && Utf8Decode(bs) == Some(s)
    ensures 1 <= LeadLength(bs[0]) <= |bs| && s != []
    ensures ScalarOf(bs[..LeadLength(bs[0])]) == Some(s[0])
    ensures Utf8Decode(bs[LeadLength(bs[0])..]) == Some(s[1..])
  {
    var n := LeadLength(bs[0]);
    var c := ScalarOf(bs[..n]).value;
    var rest := Utf8Decode(bs[n..]).value;
    assert s == [c] + rest;
  }

  /** A string's encoding is its first character's followed by the rest's. */
  lemma Utf8Split(bs: seq<byte>, n: nat, s: string)
    requires s != [] && n <= |bs|
    requires Utf8Char(s[0]) == bs[..n] && Utf8(s[1..]) == bs[n..]
    ensures Utf8(s) == bs
  {
    assert bs == bs[..n] + bs[n..];
  }

  /** Strictness: whatever the decoder accepts is exactly the UTF-8 encoding
      of what it returns, so no byte string other than `Utf8(s)` reads as `s`
      (an overlong `C0 80` is not a second spelling of U+0000). */
  lemma {:induction false} Utf8DecodeOnlyEncodings(bs: seq<byte>, s: string)
    requires Utf8Decode(bs) == Some(s)
    ensures Utf8(s) == bs
    decreases |bs|
  {
    if bs != [] {
      Utf8DecodeStep(bs, s);
      var n := LeadLength(bs[0]);
      ScalarOfShortest(bs[..n], s[0]);
      Utf8DecodeOnlyEncodings(bs[n..], s[1..]);
      Utf8Split(bs, n, s);
    }
  }

  /** `%C0%80`, the overlong spelling of U+0000, is refused. */
  lemma UnquoteRefusesOverlong()
    ensures Unquote("%C0%80") == None
  {
    var bs := PercentDecode("%C0%80").value;
    assert bs == [0xC0, 0x80];
    assert ScalarOf(bs[..2]) == None;
  }

  /** How `quote` writes one byte. */
  function EncodeByte(b: byte): (s: string)
    ensures forall i | 0 <= i < |s| :: IsQuotedChar(s[i])
  {
    if IsSafe(b) then [b as char] else ['%', HexDigit(b / 16), HexDigit(b % 16)]
  }

  /** `quote_from_bytes(bs, safe="/")`: every output character is unreserved,
      `/` or `%`. */
  function PercentEncode(bs: seq<byte>): (s: string)
    ensures forall i | 0 <= i < |s| :: IsQuotedChar(s[i])
  {
    if bs == [] then [] else EncodeByte(bs[0]) + PercentEncode(bs[1..])
  }

  /** Reads percent-encoded text back into bytes; fails on a malformed escape
      or a character that is not ASCII. */
  function PercentDecode(s: string): Option<seq<byte>>
    decreases |s|
  {
    if s == [] then Some([])
    else if s[0] == '%' then
      if |s| >= 3 && IsHexDigit(s[1]) && IsHexDigit(s[2]) then
        match PercentDecode(s[3..])
        case Some(rest) => Some([16 * HexValue(s[1]) + HexValue(s[2])] + rest)
        case None => None
      else None
    else if s[0] as int < 0x80 then
      match PercentDecode(s[1..])
      case Some(rest) => Some([s[0] as int] + rest)
      case None => None
    else None
  }

  lemma {:induction false} PercentRoundTrip(bs: seq<byte>)
    ensures PercentDecode(PercentEncode(bs)) == Some(bs)
  {
    if bs != [] {
      var b := bs[0];
      var head := EncodeByte(b);
      var s := PercentEncode(bs);
      assert s == head + PercentEncode(bs[1..]);
      PercentRoundTrip(bs[1..]);
      if IsSafe(b) {
        assert s[0] == b as char && s[1..] == PercentEncode(bs[1..]);
      } else {
        assert s[0] == '%' && s[1] == HexDigit(b / 16) && s[2] == HexDigit(b % 16);
        assert s[3..] == PercentEncode(bs[1..]);
        assert HexValue(HexDigit(b / 16)) == b / 16;
        assert HexValue(HexDigit(b % 16)) == b % 16;
      }
      assert [b] + bs[1..] == bs;
    }
  }

  /** `urllib.parse.quote(s)`. */
  function Quote(s: string): (q: string)
    ensures forall i | 0 <= i < |q| :: IsQuotedChar(q[i])
  {
    PercentEncode(Utf8(s))
  }

  /** The server-side reading of a quoted value. */
  function Unquote(q: string): Option<string> {
    match PercentDecode(q)
    case Some(bs) => Utf8Decode(bs)
    case None => None
  }

  /** Quoting loses nothing: the exact string is recovered. */
  lemma QuoteRoundTrip(s: string)
    ensures Unquote(Quote(s)) == Some(s)
  {
    PercentRoundTrip(Utf8(s));
    Utf8RoundTrip(s);
  }

  /** A string made only of safe ASCII characters is not changed by quoting. */
  lemma {:induction false} QuoteKeepsSafe(s: string)
    requires forall i | 0 <= i < |s| :: IsSafe(s[i] as int)
    ensures Quote(s) == s
  {
    if s != [] {
      QuoteKeepsSafe(s[1..]);
      assert Utf8(s) == [s[0] as int] + Utf8(s[1..]);
      assert Utf8(s)[1..] == Utf8(s[1..]);
      assert [s[0]] + s[1..] == s;
    }
  }
}
