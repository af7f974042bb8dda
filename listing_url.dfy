/** The outward-facing listing URL (chat-service/src/mls/listing-url.ts) and the
    ECMAScript `encodeURIComponent` it relies on: every character outside the
    unreserved set `A-Z a-z 0-9 - _ . ! ~ * ' ( )` is written as the `%XX`
    escapes (upper-case hex) of its UTF-8 bytes, as in section 2.1 of RFC 3986. */
module ListingUrl {
  import opened Common

  type Byte = b: int | 0 <= b < 256

  const RedfinPrefix := "https://www.redfin.com/search?location="
  const RealtorPrefix := "https://www.realtor.com/realestateandhomes-search/search?query="
  const ZillowPrefix := "https://www.zillow.com/homes/"
  const ZillowSuffix := "_rb/"

  predicate IsUnreserved(c: char) {
    ('A' <= c <= 'Z') || ('a' <= c <= 'z') || ('0' <= c <= '9')
    || c == '-' || c == '_' || c == '.' || c == '!' || c == '~' || c == '*'
    || c == '\'' || c == '(' || c == ')'
  }

  predicate IsUpperHex(c: char) {
    ('0' <= c <= '9') || ('A' <= c <= 'F')
  }

  function HexDigit(d: nat): (c: char)
    requires d < 16
    ensures IsUpperHex(c)
  {
    "0123456789ABCDEF"[d]
  }

  function HexValue(c: char): (d: nat)
    requires IsUpperHex(c)
    ensures d < 16
  {
    if '0' <= c <= '9' then c as int - '0' as int else c as int - 'A' as int + 10
  }

  lemma HexValueOfHexDigit(d: nat)
    requires d < 16
    ensures HexValue(HexDigit(d)) == d
  {
  }

  /** The UTF-8 bytes of one Unicode scalar value. */
  function Utf8Char(c: char): (r: seq<Byte>)
    ensures 1 <= |r| <= 4
    ensures (c as int < 0x80) == (|r| == 1)
  {
    var cp := c as int;
    if cp < 0x80 then [cp]
    else if cp < 0x800 then [0xC0 + cp / 0x40, 0x80 + cp % 0x40]
    else if cp < 0x10000 then [0xE0 + cp / 0x1000, 0x80 + (cp / 0x40) % 0x40, 0x80 + cp % 0x40]
    else [0xF0 + cp / 0x40000, 0x80 + (cp / 0x1000) % 0x40, 0x80 + (cp / 0x40) % 0x40, 0x80 + cp % 0x40]
  }

  /** The UTF-8 encoding of a string. */
  function Utf8(s: string): seq<Byte> {
    if s == [] then [] else Utf8Char(s[0]) + Utf8(s[1..])
  }

  /** `%XX` for each byte. */
  function Escapes(bs: seq<Byte>): (r: string)
    ensures |r| == 3 * |bs|
  {
    if bs == [] then [] else ['%', HexDigit(bs[0] / 16), HexDigit(bs[0] % 16)] + Escapes(bs[1..])
  }

  function EncodeChar(c: char): string {
    if IsUnreserved(c) then [c] else Escapes(Utf8Char(c))
  }

  /** ECMAScript `encodeURIComponent` on a string of Unicode scalar values. */
  function EncodeUriComponent(s: string): (r: string)
    ensures |s| <= |r| <= 12 * |s|
  {
    if s == [] then [] else EncodeChar(s[0]) + EncodeUriComponent(s[1..])
  }

  /** A string made only of unreserved characters and `%XX` escapes. */
  predicate EscapedForm(s: string)
    decreases |s|
  {
    if s == [] then true
    else if IsUnreserved(s[0]) then EscapedForm(s[1..])
    else s[0] == '%' && |s| >= 3 && IsUpperHex(s[1]) && IsUpperHex(s[2]) && EscapedForm(s[3..])
  }

  /** Percent-decoding to bytes; `None` when the string is not in escaped form. */
  function PercentDecode(s: string): Option<seq<Byte>>
    decreases |s|
  {
    if s == [] then Some([])
    else if IsUnreserved(s[0]) then
      match PercentDecode(s[1..])
      case Some(rest) => Some([s[0] as int] + rest)
      case None => None
    else if s[0] == '%' && |s| >= 3 && IsUpperHex(s[1]) && IsUpperHex(s[2]) then
      match PercentDecode(s[3..])
      case Some(rest) => Some([HexValue(s[1]) * 16 + HexValue(s[2])] + rest)
      case None => None
    else None
  }

  /** The result of prepending bytes to a decoding result. */
  function Prepend(bs: seq<Byte>, d: Option<seq<Byte>>): Option<seq<Byte>> {
    match d
    case Some(r) => Some(bs + r)
    case None => None
  }

  lemma OneEscapeDecode(b: Byte, tail: string)
    ensures var e := ['%', HexDigit(b / 16), HexDigit(b % 16)] + tail;
      EscapedForm(e) == EscapedForm(tail) && PercentDecode(e) == Prepend([b], PercentDecode(tail))
  {
    var e := ['%', HexDigit(b / 16), HexDigit(b % 16)] + tail;
    assert e[3..] == tail;
    HexValueOfHexDigit(b / 16);
    HexValueOfHexDigit(b % 16);
  }

  lemma {:induction false} EscapesDecode(bs: seq<Byte>, rest: string)
    ensures EscapedForm(Escapes(bs) + rest) == EscapedForm(rest)
    ensures PercentDecode(Escapes(bs) + rest) == Prepend(bs, PercentDecode(rest))
  {
    if bs == [] {
      assert Escapes(bs) + rest == rest;
      match PercentDecode(rest)
      case Some(r) => assert bs + r == r;
      case None =>
    } else {
      var tail := Escapes(bs[1..]) + rest;
      var head := ['%', HexDigit(bs[0] / 16), HexDigit(bs[0] % 16)];
      assert Escapes(bs) == head + Escapes(bs[1..]);
      AppendAssoc(head, Escapes(bs[1..]), rest);
      OneEscapeDecode(bs[0], tail);
      EscapesDecode(bs[1..], rest);
      PrependTwice([bs[0]], bs[1..], PercentDecode(rest));
      assert [bs[0]] + bs[1..] == bs;
    }
  }

  lemma PrependTwice(a: seq<Byte>, b: seq<Byte>, d: Option<seq<Byte>>)
    ensures Prepend(a, Prepend(b, d)) == Prepend(a + b, d)
  {
    match d
    case Some(r) => AppendAssoc(a, b, r);
    case None =>
  }

  lemma EncodeCharDecode(c: char, rest: string)
    ensures EscapedForm(EncodeChar(c) + rest) == EscapedForm(rest)
    ensures PercentDecode(EncodeChar(c) + rest) == Prepend(Utf8Char(c), PercentDecode(rest))
  {
    if IsUnreserved(c) {
      assert ([c] + rest)[1..] == rest;
    } else {
      EscapesDecode(Utf8Char(c), rest);
    }
  }

  /** The encoded text is in escaped form, and percent-decoding it gives back
      exactly the UTF-8 bytes of the input: nothing is lost or added. */
  lemma {:induction false} EncodeRoundTrip(s: string)
    ensures EscapedForm(EncodeUriComponent(s))
    ensures PercentDecode(EncodeUriComponent(s)) == Some(Utf8(s))
  {
    if s != [] {
      EncodeRoundTrip(s[1..]);
      EncodeCharDecode(s[0], EncodeUriComponent(s[1..]));
    }
  }

  /** A string in escaped form contains no space. */
  lemma {:induction false} EscapedFormHasNoSpace(s: string)
    requires EscapedForm(s)
    ensures forall i :: 0 <= i < |s| ==> s[i] != ' '
    decreases |s|
  {
    if s != [] {
      if IsUnreserved(s[0]) {
        EscapedFormHasNoSpace(s[1..]);
        assert forall i :: 1 <= i < |s| ==> s[i] == s[1..][i - 1];
      } else {
        EscapedFormHasNoSpace(s[3..]);
        assert forall i :: 3 <= i < |s| ==> s[i] == s[3..][i - 3];
      }
    }
  }

  /** Unreserved characters pass through `encodeURIComponent` unchanged. */
  lemma {:induction false} EncodeUnreservedIsIdentity(s: string)
    requires forall i :: 0 <= i < |s| ==> IsUnreserved(s[i])
    ensures EncodeUriComponent(s) == s
  {
    if s != [] {
      EncodeUnreservedIsIdentity(s[1..]);
      assert s == [s[0]] + s[1..];
    }
  }

  /** `address.replace(/ /g, '-')`. */
  function ReplaceSpaces(s: string): (r: string)
    ensures |r| == |s|
    ensures forall i :: 0 <= i < |s| ==> r[i] == if s[i] == ' ' then '-' else s[i]
  {
    if s == [] then [] else [if s[0] == ' ' then '-' else s[0]] + ReplaceSpaces(s[1..])
  }

  /** The URL of a listing on the user's preferred platform. */
  function BuildListingUrl(address: string, preference: Option<string>): (url: string)
    ensures RedfinPrefix <= url || RealtorPrefix <= url || ZillowPrefix <= url
  {
    if preference == Some("redfin") then RedfinPrefix + EncodeUriComponent(address)
    else if preference == Some("realtor") then RealtorPrefix + EncodeUriComponent(address)
    else ZillowPrefix + ReplaceSpaces(address) + ZillowSuffix
  }

  /** A string whose characters are all unreserved or `%XX` escapes and which
      percent-decodes to the UTF-8 bytes of `address`. */
  predicate EncodesAddress(segment: string, address: string) {
    EscapedForm(segment) && PercentDecode(segment) == Some(Utf8(address))
  }

  /** Redfin and Realtor URLs end in the percent-encoded address. */
  lemma EncodedPlatformUrl(address: string, preference: Option<string>)
    requires preference == Some("redfin") || preference == Some("realtor")
    ensures var prefix := if preference == Some("redfin") then RedfinPrefix else RealtorPrefix;
      var url := BuildListingUrl(address, preference);
      prefix <= url && EncodesAddress(url[|prefix|..], address)
  {
    var prefix := if preference == Some("redfin") then RedfinPrefix else RealtorPrefix;
    var url := BuildListingUrl(address, preference);
    assert url == prefix + EncodeUriComponent(address);
    assert url[|prefix|..] == EncodeUriComponent(address);
    EncodeRoundTrip(address);
  }

  /** Every other preference, absent included, gives the Zillow URL: the address
      with each space turned into '-', nothing else escaped, so no space remains
      and the length is the address length plus the fixed prefix and suffix. */
  lemma ZillowUrl(address: string, preference: Option<string>)
    requires preference != Some("redfin") && preference != Some("realtor")
    ensures var url := BuildListingUrl(address, preference);
      && |url| == |ZillowPrefix| + |address| + |ZillowSuffix|
      && ZillowPrefix <= url
      && url[|url| - |ZillowSuffix|..] == ZillowSuffix
      && (forall i :: 0 <= i < |url| ==> url[i] != ' ')
      && (forall i :: 0 <= i < |address| ==>
            url[|ZillowPrefix| + i] == if address[i] == ' ' then '-' else address[i])
  {
    ZillowPartsHaveNoSpace();
    DashedBetween(BuildListingUrl(address, preference), ZillowPrefix, ReplaceSpaces(address), ZillowSuffix, address);
  }

  /** A URL made of a fixed part, the dashed address and a fixed part. */
  lemma DashedBetween(url: string, prefix: string, mid: string, suffix: string, address: string)
    requires url == prefix + mid + suffix
    requires |mid| == |address|
    requires forall i :: 0 <= i < |mid| ==> mid[i] == if address[i] == ' ' then '-' else address[i]
    requires forall i :: 0 <= i < |prefix| ==> prefix[i] != ' '
    requires forall i :: 0 <= i < |suffix| ==> suffix[i] != ' '
    ensures && |url| == |prefix| + |address| + |suffix|
      && prefix <= url
      && url[|url| - |suffix|..] == suffix
      && (forall i :: 0 <= i < |url| ==> url[i] != ' ')
      && (forall i :: 0 <= i < |address| ==>
            url[|prefix| + i] == if address[i] == ' ' then '-' else address[i])
  {
    assert forall i :: 0 <= i < |url| ==> url[i] != ' ' by {
      NoSpaceAppend(prefix, mid);
      NoSpaceAppend(prefix + mid, suffix);
    }
    assert forall i :: 0 <= i < |address| ==>
             url[|prefix| + i] == if address[i] == ' ' then '-' else address[i] by {
      forall i | 0 <= i < |address|
        ensures url[|prefix| + i] == if address[i] == ' ' then '-' else address[i]
      {
        assert url[|prefix| + i] == (prefix + mid)[|prefix| + i] == mid[i];
      }
    }
    assert prefix <= url by {
      assert url[..|prefix|] == prefix;
    }
    assert url[|url| - |suffix|..] == suffix;
  }

  lemma NoSpaceAppend(a: string, b: string)
    requires forall i :: 0 <= i < |a| ==> a[i] != ' '
    requires forall i :: 0 <= i < |b| ==> b[i] != ' '
    ensures forall i :: 0 <= i < |a + b| ==> (a + b)[i] != ' '
  {
    forall i | 0 <= i < |a + b|
      ensures (a + b)[i] != ' '
    {
      if i >= |a| {
        assert (a + b)[i] == b[i - |a|];
      }
    }
  }

  lemma ZillowPartsHaveNoSpace()
    ensures forall i :: 0 <= i < |ZillowPrefix| ==> ZillowPrefix[i] != ' '
    ensures forall i :: 0 <= i < |ZillowSuffix| ==> ZillowSuffix[i] != ' '
  {
  }
}
