/**
 * Building the query part of a request URL as the client does:
 * `urlencode` over the sorted parameter items (each key and value passed
 * through `quote_plus`), then `unquote_unreserved`, which turns back only
 * those `%XX` escapes that stand for an unreserved character (section 2.3
 * of RFC 3986).
 */
module UrlEncoding {
  import opened Wrappers
  import Strings
  import Sorting

  newtype byte = x: int | 0 <= x < 256

  /** UTF-8 encoding of one code point (RFC 3629). */
  function Utf8Char(c: char): (bs: seq<byte>)
    ensures 1 <= |bs| <= 4
    ensures c as int < 0x80 <==> |bs| == 1
    ensures |bs| == 1 ==> bs[0] as int == c as int
  {
    var n := c as int;
    if n < 0x80 then [n as byte]
    else if n < 0x800 then [(0xC0 + n / 64) as byte, (0x80 + n % 64) as byte]
    else if n < 0x10000 then [(0xE0 + n / 4096) as byte, (0x80 + (n / 64) % 64) as byte, (0x80 + n % 64) as byte]
    else [(0xF0 + n / 262144) as byte, (0x80 + (n / 4096) % 64) as byte, (0x80 + (n / 64) % 64) as byte, (0x80 + n % 64) as byte]
  }

  function Utf8(s: string): seq<byte>
  {
    if s == [] then [] else Utf8Char(s[0]) + Utf8(s[1..])
  }

  /** The bytes `quote` never escapes: ASCII letters, digits and `_.-~`; the same set RFC 3986 calls unreserved. */
  predicate Unreserved(b: int)
  {
    ('A' as int <= b <= 'Z' as int) || ('a' as int <= b <= 'z' as int) || ('0' as int <= b <= '9' as int)
    || b == '_' as int || b == '.' as int || b == '-' as int || b == '~' as int
  }

  const HexDigits: string := "0123456789ABCDEF"

  /** One byte as `quote_plus` writes it: space as `+`, unreserved as itself, anything else as `%XX`. */
  function EscapeByte(b: byte): (t: string)
    ensures b == 0x20 ==> t == "+"
    ensures b != 0x20 && Unreserved(b as int) ==> t == [b as char]
    ensures b != 0x20 && !Unreserved(b as int) ==> |t| == 3 && t[0] == '%'
  {
    if b == 0x20 then "+"
    else if Unreserved(b as int) then [b as char]
    else ['%', HexDigits[b as int / 16], HexDigits[b as int % 16]]
  }

  function QuoteBytes(bs: seq<byte>): string
  {
    if bs == [] then "" else EscapeByte(bs[0]) + QuoteBytes(bs[1..])
  }

  /** `urllib.parse.quote_plus(s)` with no extra safe characters. */
  function QuotePlus(s: string): string
  {
    QuoteBytes(Utf8(s))
  }

  function HexValue(c: char): Option<nat>
  {
    if '0' <= c <= '9' then Some(c as int - '0' as int)
    else if 'A' <= c <= 'F' then Some(c as int - 'A' as int + 10)
    else if 'a' <= c <= 'f' then Some(c as int - 'a' as int + 10)
    else None
  }

  /**
   * `unquote_plus` read back to bytes: `+` is a space, `%XX` with two hex
   * digits is that byte, anything else is the UTF-8 of the character.
   */
  function UnquotePlusBytes(t: string): seq<byte>
  {
    if t == [] then []
    else if t[0] == '+' then [0x20 as byte] + UnquotePlusBytes(t[1..])
    else if t[0] == '%' && |t| >= 3 && HexValue(t[1]).Some? && HexValue(t[2]).Some? then
      [(HexValue(t[1]).value * 16 + HexValue(t[2]).value) as byte] + UnquotePlusBytes(t[3..])
    else Utf8Char(t[0]) + UnquotePlusBytes(t[1..])
  }

  /** The digits `quote` writes: `0-9` and upper-case `A-F`. */
  predicate IsUpperHex(c: char)
  {
    ('0' <= c <= '9') || ('A' <= c <= 'F')
  }

  lemma HexDigitsValue(v: nat)
    requires v < 16
    ensures IsUpperHex(HexDigits[v]) && HexValue(HexDigits[v]) == Some(v)
  {
  }

  /** A `%` and two hex digits read back as the byte they name. */
  lemma UnquotePercent(h: char, l: char, rest: string)
    requires HexValue(h).Some? && HexValue(l).Some?
    ensures UnquotePlusBytes(['%', h, l] + rest)
            == [(HexValue(h).value * 16 + HexValue(l).value) as byte] + UnquotePlusBytes(rest)
  {
    assert (['%', h, l] + rest)[3..] == rest;
  }

  /** Any other single character reads back as its UTF-8 bytes. */
  lemma UnquotePlain(c: char, rest: string)
    requires c != '+' && c != '%'
    ensures UnquotePlusBytes([c] + rest) == Utf8Char(c) + UnquotePlusBytes(rest)
  {
    assert ([c] + rest)[1..] == rest;
  }

  lemma UnquoteEscapedByte(b: byte, rest: string)
    ensures UnquotePlusBytes(EscapeByte(b) + rest) == [b] + UnquotePlusBytes(rest)
  {
    if b == 0x20 {
      assert (EscapeByte(b) + rest)[1..] == rest;
    } else if Unreserved(b as int) {
      UnquotePlain(b as char, rest);
    } else {
      var hi, lo := b as int / 16, b as int % 16;
      HexDigitsValue(hi);
      HexDigitsValue(lo);
      UnquotePercent(HexDigits[hi], HexDigits[lo], rest);
    }
  }

  lemma {:induction false} UnquoteQuoteBytes(bs: seq<byte>)
    ensures UnquotePlusBytes(QuoteBytes(bs)) == bs
    decreases |bs|
  {
    if bs != [] {
      UnquoteEscapedByte(bs[0], QuoteBytes(bs[1..]));
      UnquoteQuoteBytes(bs[1..]);
    }
  }

  /** `unquote_plus` recovers the UTF-8 bytes of whatever `quote_plus` escaped. */
  lemma QuotePlusRoundTrip(s: string)
    ensures UnquotePlusBytes(QuotePlus(s)) == Utf8(s)
  {
    UnquoteQuoteBytes(Utf8(s));
  }

  /** `urlencode(items)` for a list of string pairs. */
  function Urlencode(items: seq<(string, string)>): string
  {
    Strings.Join("&", seq(|items|, i requires 0 <= i < |items| => QuotePlus(items[i].0) + "=" + QuotePlus(items[i].1)))
  }

  /** Python's ordering of `(key, value)` tuples. */
  predicate ItemLe(a: (string, string), b: (string, string))
  {
    (Strings.StrLe(a.0, b.0) && a.0 != b.0) || (a.0 == b.0 && Strings.StrLe(a.1, b.1))
  }

  lemma ItemLeTotalPreorder()
    ensures Sorting.TotalPreorder(ItemLe)
  {
    forall a, b ensures ItemLe(a, b) || ItemLe(b, a) {
      Strings.StrLeTotal(a.0, b.0);
      Strings.StrLeTotal(a.1, b.1);
    }
    forall a, b, c | ItemLe(a, b) && ItemLe(b, c) ensures ItemLe(a, c) {
      if a.0 == b.0 && b.0 == c.0 {
        Strings.StrLeTransitive(a.1, b.1, c.1);
      } else if a.0 != b.0 && b.0 != c.0 {
        Strings.StrLeTransitive(a.0, b.0, c.0);
        if a.0 == c.0 {
          Strings.StrLeAntisymmetric(b.0, c.0);
        }
      }
    }
  }

  /** `sorted(params.items())`. */
  function SortedItems(items: seq<(string, string)>): (r: seq<(string, string)>)
    ensures multiset(r) == multiset(items)
    ensures Sorting.SortedBy(r, ItemLe)
  {
    ItemLeTotalPreorder();
    Sorting.SortBySorted(items, ItemLe);
    Sorting.SortBy(items, ItemLe)
  }

  // ---------------------------------------------------------------------
  // unquote_unreserved

  predicate IsAsciiAlnum(c: char)
  {
    ('A' <= c <= 'Z') || ('a' <= c <= 'z') || ('0' <= c <= '9')
  }

  /** The URL was rejected: a `%` followed by two letters or digits that are not hex. */
  datatype InvalidUrl = InvalidPercentEscape(at: nat)

  /**
   * `requests.utils.unquote_unreserved`, read left to right from `from`:
   * a `%` followed by two hex digits naming an unreserved character becomes
   * that character; a `%` followed by two letters or digits that are not
   * both hex is an error; every other character is kept.
   */
  function UnquoteUnreservedFrom(u: string, from: nat): Result<string, InvalidUrl>
    requires from <= |u|
    decreases |u| - from
  {
    if from == |u| then Success("")
    else if u[from] == '%' && from + 2 < |u| && IsAsciiAlnum(u[from + 1]) && IsAsciiAlnum(u[from + 2]) then
      if HexValue(u[from + 1]).Some? && HexValue(u[from + 2]).Some? then
        var v := HexValue(u[from + 1]).value * 16 + HexValue(u[from + 2]).value;
        if Unreserved(v) then
          match UnquoteUnreservedFrom(u, from + 3)
          case Success(rest) => Success([v as char] + rest)
          case Failure(e) => Failure(e)
        else
          match UnquoteUnreservedFrom(u, from + 1)
          case Success(rest) => Success("%" + rest)
          case Failure(e) => Failure(e)
      else Failure(InvalidPercentEscape(from))
    else
      match UnquoteUnreservedFrom(u, from + 1)
      case Success(rest) => Success([u[from]] + rest)
      case Failure(e) => Failure(e)
  }

  function UnquoteUnreserved(u: string): Result<string, InvalidUrl>
  {
    UnquoteUnreservedFrom(u, 0)
  }

  /** A `%` at `i` is followed by two upper-case hex digits naming a byte that is not unreserved. */
  predicate EscapeOk(t: string, i: nat)
    requires i < |t|
  {
    t[i] == '%' ==>
      i + 2 < |t| && IsUpperHex(t[i + 1]) && IsUpperHex(t[i + 2])
      && !Unreserved(HexValue(t[i + 1]).value * 16 + HexValue(t[i + 2]).value)
  }

  /** Every `%` is such an escape. */
  predicate WellEscaped(t: string)
  {
    forall i :: 0 <= i < |t| ==> EscapeOk(t, i)
  }

  lemma HexDigitsAreHex(c: char)
    requires IsUpperHex(c)
    ensures HexValue(c).Some? && IsAsciiAlnum(c)
  {
  }

  lemma {:induction false} UnquoteUnreservedKeeps(t: string, from: nat)
    requires from <= |t| && WellEscaped(t)
    ensures UnquoteUnreservedFrom(t, from) == Success(t[from..])
    decreases |t| - from
  {
    if from < |t| {
      UnquoteUnreservedKeeps(t, from + 1);
      assert EscapeOk(t, from);
      assert t[from..] == [t[from]] + t[from + 1..];
      if t[from] == '%' {
        HexDigitsAreHex(t[from + 1]);
        HexDigitsAreHex(t[from + 2]);
        assert !Unreserved(HexValue(t[from + 1]).value * 16 + HexValue(t[from + 2]).value);
        assert UnquoteUnreservedFrom(t, from) == Success("%" + t[from + 1..]);
      } else {
        assert UnquoteUnreservedFrom(t, from) == Success([t[from]] + t[from + 1..]);
      }
    } else {
      assert t[from..] == "";
      assert UnquoteUnreservedFrom(t, from) == Success("");
    }
  }

  lemma WellEscapedConcat(a: string, b: string)
    requires WellEscaped(a) && WellEscaped(b)
    ensures WellEscaped(a + b)
  {
    var t := a + b;
    forall i | 0 <= i < |t| ensures EscapeOk(t, i) {
      if i < |a| {
        assert EscapeOk(a, i) && t[i] == a[i];
        if a[i] == '%' {
          assert t[i + 1] == a[i + 1] && t[i + 2] == a[i + 2];
        }
      } else {
        var j := i - |a|;
        assert EscapeOk(b, j) && t[i] == b[j];
        if b[j] == '%' {
          assert t[i + 1] == b[j + 1] && t[i + 2] == b[j + 2];
        }
      }
    }
  }

  lemma EscapeByteWellEscaped(b: byte)
    ensures WellEscaped(EscapeByte(b))
  {
    var t := EscapeByte(b);
    if b != 0x20 && !Unreserved(b as int) {
      var hi, lo := b as int / 16, b as int % 16;
      HexDigitsValue(hi);
      HexDigitsValue(lo);
      assert t == ['%', HexDigits[hi], HexDigits[lo]];
      assert HexValue(t[1]).value * 16 + HexValue(t[2]).value == b as int;
      assert EscapeOk(t, 0) && EscapeOk(t, 1) && EscapeOk(t, 2);
    } else {
      assert |t| == 1 && EscapeOk(t, 0);
    }
  }

  lemma {:induction false} QuoteBytesWellEscaped(bs: seq<byte>)
    ensures WellEscaped(QuoteBytes(bs))
    decreases |bs|
  {
    if bs != [] {
      EscapeByteWellEscaped(bs[0]);
      QuoteBytesWellEscaped(bs[1..]);
      WellEscapedConcat(EscapeByte(bs[0]), QuoteBytes(bs[1..]));
    }
  }

  lemma {:induction false} JoinWellEscaped(sep: string, parts: seq<string>)
    requires WellEscaped(sep)
    requires forall k :: 0 <= k < |parts| ==> WellEscaped(parts[k])
    ensures WellEscaped(Strings.Join(sep, parts))
    decreases |parts|
  {
    if |parts| > 1 {
      JoinWellEscaped(sep, parts[1..]);
      WellEscapedConcat(parts[0], sep);
      WellEscapedConcat(parts[0] + sep, Strings.Join(sep, parts[1..]));
    }
  }

  lemma UrlencodeWellEscaped(items: seq<(string, string)>)
    ensures WellEscaped(Urlencode(items))
  {
    var parts := seq(|items|, i requires 0 <= i < |items| => QuotePlus(items[i].0) + "=" + QuotePlus(items[i].1));
    forall k | 0 <= k < |parts| ensures WellEscaped(parts[k]) {
      QuoteBytesWellEscaped(Utf8(items[k].0));
      QuoteBytesWellEscaped(Utf8(items[k].1));
      WellEscapedConcat(QuotePlus(items[k].0), "=");
      WellEscapedConcat(QuotePlus(items[k].0) + "=", QuotePlus(items[k].1));
    }
    JoinWellEscaped("&", parts);
  }

  /**
   * `unquote_unreserved` leaves `urlencode` output unchanged: urlencode
   * never escapes an unreserved byte, so there is nothing to turn back.
   */
  lemma UnquoteUnreservedOfUrlencode(items: seq<(string, string)>)
    ensures UnquoteUnreserved(Urlencode(items)) == Success(Urlencode(items))
  {
    UrlencodeWellEscaped(items);
    UnquoteUnreservedKeeps(Urlencode(items), 0);
  }
}
