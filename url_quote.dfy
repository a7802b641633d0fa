/** Percent-encoding as `urllib.parse.quote` does it with its default `safe="/"`,
    and the decoding of section 2.1 of RFC 3986 as its reference inverse.
    The input is the byte string `quote` encodes (the UTF-8 bytes of a `str`). */
module UrlQuote {
  import opened Wrappers
  import opened Text

  /** Bytes `quote` never escapes: ASCII letters and digits, `_.-~`, and the default safe `/`. */
  predicate Safe(b: byte) {
    || ('A' as int <= b <= 'Z' as int)
    || ('a' as int <= b <= 'z' as int)
    || ('0' as int <= b <= '9' as int)
    || b == '_' as int || b == '.' as int || b == '-' as int || b == '~' as int
    || b == '/' as int
  }

  const HexDigits := "0123456789ABCDEF"

  function HexDigit(n: int): char
    requires 0 <= n < 16
  {
    HexDigits[n]
  }

  /** The value of a hexadecimal digit of either case. */
  function HexValue(c: char): Option<int> {
    if '0' <= c <= '9' then Some(c as int - '0' as int)
    else if 'A' <= c <= 'F' then Some(c as int - 'A' as int + 10)
    else if 'a' <= c <= 'f' then Some(c as int - 'a' as int + 10)
    else None
  }

  /** One byte: itself when safe, otherwise `%` and two upper-case hex digits. */
  function QuoteByte(b: byte): string {
    if Safe(b) then [b as char] else ['%', HexDigit(b / 16), HexDigit(b % 16)]
  }

  /** `urllib.parse.quote(s)`: every byte in turn. */
  function Quote(s: seq<byte>): string {
    if s == [] then "" else QuoteByte(s[0]) + Quote(s[1..])
  }

  /** Percent-decoding (section 2.1 of RFC 3986): `%` followed by two hex digits
      stands for that octet, any other ASCII character for itself; a stray `%`
      or a non-ASCII character makes the text malformed. */
  function Unquote(s: string): Option<seq<byte>>
    decreases |s|
  {
    if s == [] then Some([])
    else if s[0] == '%' then
      if |s| >= 3 && HexValue(s[1]).Some? && HexValue(s[2]).Some? then
        match Unquote(s[3..])
        case Some(rest) => Some([HexValue(s[1]).value * 16 + HexValue(s[2]).value] + rest)
        case None => None
      else None
    else if s[0] < 128 as char then
      match Unquote(s[1..])
      case Some(rest) => Some([s[0] as int] + rest)
      case None => None
    else None
  }

  /** What `quote` may emit: safe characters, `%` and upper-case hex digits. */
  predicate QuotedChar(c: char) {
    (c < 128 as char && Safe(c as int)) || c == '%'
  }

  lemma HexRoundTrip(n: int)
    requires 0 <= n < 16
    ensures HexValue(HexDigit(n)) == Some(n)
  {
  }

  /** Decoding the encoding of one byte followed by anything consumes exactly that byte. */
  lemma UnquoteQuoteByte(b: byte, rest: string)
    ensures Unquote(QuoteByte(b) + rest) ==
            match Unquote(rest)
            case Some(r) => Some([b] + r)
            case None => None
  {
    var s := QuoteByte(b) + rest;
    if Safe(b) {
      assert s[0] == b as char && s[1..] == rest;
    } else {
      HexRoundTrip(b / 16);
      HexRoundTrip(b % 16);
      assert s[0] == '%' && s[1] == HexDigit(b / 16) && s[2] == HexDigit(b % 16);
      assert s[3..] == rest;
    }
  }

  /** Percent-decoding the encoded bytes gives them back. */
  lemma {:induction false} UnquoteQuote(s: seq<byte>)
    ensures Unquote(Quote(s)) == Some(s)
  {
    if s != [] {
      UnquoteQuote(s[1..]);
      UnquoteQuoteByte(s[0], Quote(s[1..]));
      assert [s[0]] + s[1..] == s;
    }
  }

  /** Every character `quote` emits is a safe character or `%`-escape material. */
  lemma {:induction false} QuoteAlphabet(s: seq<byte>)
    ensures forall i :: 0 <= i < |Quote(s)| ==> QuotedChar(Quote(s)[i])
  {
    if s != [] {
      QuoteAlphabet(s[1..]);
      var head, tail := QuoteByte(s[0]), Quote(s[1..]);
      assert Quote(s) == head + tail;
      forall i | 0 <= i < |head| ensures QuotedChar(head[i]) {
        if !Safe(s[0]) && i > 0 {
          assert head[i] in HexDigits;
        }
      }
    }
  }

  /** The encoding never contains the URL delimiters `:` and `@`, nor a space. */
  lemma QuoteAvoidsDelimiters(s: seq<byte>)
    ensures ':' !in Quote(s) && '@' !in Quote(s) && ' ' !in Quote(s)
  {
    QuoteAlphabet(s);
  }

  /** `quote` works byte by byte: the encoding of a concatenation is the
      concatenation of the encodings. */
  lemma {:induction false} QuoteConcat(a: seq<byte>, b: seq<byte>)
    ensures Quote(a + b) == Quote(a) + Quote(b)
  {
    if a != [] {
      assert (a + b)[0] == a[0] && (a + b)[1..] == a[1..] + b;
      QuoteConcat(a[1..], b);
    } else {
      assert a + b == b;
    }
  }

  /** A safe byte is never escaped, wherever it stands in the input. */
  lemma SafeNeverQuoted(a: seq<byte>, b: byte, c: seq<byte>)
    requires Safe(b)
    ensures Quote(a + [b] + c) == Quote(a) + [b as char] + Quote(c)
  {
    QuoteConcat(a + [b], c);
    QuoteConcat(a, [b]);
    assert Quote([b]) == [b as char] + Quote([]);
  }

  /** An unsafe byte, wherever it stands, becomes `%` and its value in two
      upper-case hexadecimal digits, high nibble first. */
  lemma UnsafeEscaped(a: seq<byte>, b: byte, c: seq<byte>)
    requires !Safe(b)
    ensures Quote(a + [b] + c) == Quote(a) + ['%', HexDigits[b / 16], HexDigits[b % 16]] + Quote(c)
  {
    QuoteConcat(a + [b], c);
    QuoteConcat(a, [b]);
    assert Quote([b]) == ['%', HexDigit(b / 16), HexDigit(b % 16)] + Quote([]);
  }

  /** A string of safe bytes is emitted unchanged. */
  lemma {:induction false} QuoteSafeUnchanged(s: seq<byte>)
    requires forall i :: 0 <= i < |s| ==> Safe(s[i])
    ensures |Quote(s)| == |s| && forall i :: 0 <= i < |s| ==> Quote(s)[i] == s[i] as char
  {
    if s != [] {
      QuoteSafeUnchanged(s[1..]);
      assert Quote(s) == [s[0] as char] + Quote(s[1..]);
    }
  }

  /** An ASCII text made only of safe characters is its own encoding: `quote`
      gives back exactly the text whose UTF-8 bytes it was handed. */
  lemma QuoteSafeAscii(s: string)
    requires forall i :: 0 <= i < |s| ==> s[i] < 128 as char && Safe(s[i] as int)
    ensures Quote(AsciiBytes(s)) == s
  {
    var b := AsciiBytes(s);
    QuoteSafeUnchanged(b);
  }
}
