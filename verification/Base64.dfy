/** Base64 (section 4 of RFC 4648), its URL-safe form without padding (section 5), and back. */
module Base64 {
  import opened Common

  type Byte = x: int | 0 <= x < 256

  type Sextet = x: int | 0 <= x < 64

  /** The character of a value: the capital letters, the small letters, the digits, plus and slash. */
  function CharOf(v: Sextet): (c: char)
    ensures c != '=' && !IsWhitespace(c)
  {
    if v < 26 then 'A' + v as char
    else if v < 52 then 'a' + (v - 26) as char
    else if v < 62 then '0' + (v - 52) as char
    else if v == 62 then '+'
    else '/'
  }

  function ValueOf(c: char): (r: Option<Sextet>)
    ensures r.Some? ==> CharOf(r.value) == c
  {
    if 'A' <= c <= 'Z' then Some((c - 'A') as int)
    else if 'a' <= c <= 'z' then Some((c - 'a') as int + 26)
    else if '0' <= c <= '9' then Some((c - '0') as int + 52)
    else if c == '+' then Some(62)
    else if c == '/' then Some(63)
    else None
  }

  lemma ValueOfChar(v: Sextet)
    ensures ValueOf(CharOf(v)) == Some(v)
  {
  }

  // Encoding

  /** The four characters of up to three bytes. */
  function EncodeGroup(g: seq<Byte>): string
    requires 1 <= |g| <= 3
  {
    var b1, b2, b3 := g[0], if |g| > 1 then g[1] else 0, if |g| > 2 then g[2] else 0;
    [CharOf(b1 / 4), CharOf(b1 % 4 * 16 + b2 / 16),
     if |g| > 1 then CharOf(b2 % 16 * 4 + b3 / 64) else '=',
     if |g| > 2 then CharOf(b3 % 64) else '=']
  }

  function Encode(bytes: seq<Byte>): string {
    if bytes == [] then "" else EncodeGroup(bytes[..Min(3, |bytes|)]) + Encode(bytes[Min(3, |bytes|)..])
  }

  method Base64Encode(bytes: seq<Byte>) returns (out: string)
    ensures out == Encode(bytes)
  {
    out := "";
    var index := 0;
    assert bytes[0..] == bytes && "" + Encode(bytes) == Encode(bytes);
    while index < |bytes|
      invariant index <= |bytes| && out + Encode(bytes[index..]) == Encode(bytes)
    {
      var next := Min(index + 3, |bytes|);
      var rest := bytes[index..];
      assert rest[..Min(3, |rest|)] == bytes[index..next] && rest[Min(3, |rest|)..] == bytes[next..];
      ConcatAssoc(out, EncodeGroup(bytes[index..next]), Encode(bytes[next..]));
      out := out + EncodeGroup(bytes[index..next]);
      index := next;
    }
    assert out + "" == out;
  }

  // Decoding

  /** A character that stands for a value or, in the last two places, pads. */
  function ValueAt(s: string, i: nat, mayPad: bool): Option<int> {
    if i >= |s| then None
    else if mayPad && s[i] == '=' then
      var padding: Option<int> := Some(-1);
      padding
    else
      match ValueOf(s[i])
      case Some(v) => Some(v)
      case None => None
  }

  /** The low byte of a number, as a byte array keeps it. */
  function LowByte(v: int): Byte {
    v % 256
  }

  /** The bytes of four values. Without a third value, the bits of -1 stand in the place of its low bits. */
  function JoinValues(c1: int, c2: int, c3: int, c4: int): seq<Byte> {
    [LowByte(c1 * 4 + c2 / 16)]
    + (if c3 >= 0 then [LowByte(c2 % 16 * 16 + c3 / 4)] else [])
    + (if c4 >= 0 then [LowByte((if c3 >= 0 then c3 % 4 else 3) * 64 + c4)] else [])
  }

  /** The bytes of a group of four characters; a missing or foreign character is an error. */
  function DecodeGroup(g: string): Option<seq<Byte>> {
    var c1, c2, c3, c4 := ValueAt(g, 0, false), ValueAt(g, 1, false), ValueAt(g, 2, true), ValueAt(g, 3, true);
    if c1.None? || c2.None? || c3.None? || c4.None? then None
    else Some(JoinValues(c1.value, c2.value, c3.value, c4.value))
  }

  function DecodeGroups(s: string): Option<seq<Byte>> {
    if s == "" then Some([])
    else
      match DecodeGroup(s[..Min(4, |s|)])
      case None => None
      case Some(g) =>
        match DecodeGroups(s[Min(4, |s|)..])
        case None => None
        case Some(rest) => Some(g + rest)
  }

  function WithoutWhitespace(s: string): string {
    if s == "" then ""
    else (if IsWhitespace(s[0]) then "" else [s[0]]) + WithoutWhitespace(s[1..])
  }

  function Decode(s: string): Option<seq<Byte>> {
    DecodeGroups(WithoutWhitespace(s))
  }

  method Base64Decode(s: string) returns (r: Option<seq<Byte>>)
    ensures r == Decode(s)
  {
    var clean := WithoutWhitespace(s);
    var bytes: seq<Byte> := [];
    var index := 0;
    assert clean[0..] == clean;
    assert DecodeGroups(clean).Some? ==> [] + DecodeGroups(clean).value == DecodeGroups(clean).value;
    while index < |clean|
      invariant index <= |clean|
      invariant DecodeGroups(clean)
             == (match DecodeGroups(clean[index..]) case None => None case Some(rest) => Some(bytes + rest))
    {
      var next := Min(index + 4, |clean|);
      var rest := clean[index..];
      assert rest[..Min(4, |rest|)] == clean[index..next] && rest[Min(4, |rest|)..] == clean[next..];
      var g := DecodeGroup(clean[index..next]);
      if g.None? {
        return None;
      }
      if DecodeGroups(clean[next..]).Some? {
        ConcatAssoc(bytes, g.value, DecodeGroups(clean[next..]).value);
      }
      bytes := bytes + g.value;
      index := next;
    }
    assert bytes + [] == bytes;
    return Some(bytes);
  }

  // Encoding and decoding

  lemma GroupRoundTrip(g: seq<Byte>)
    requires 1 <= |g| <= 3
    ensures DecodeGroup(EncodeGroup(g)) == Some(g)
  {
    var b1, b2, b3 := g[0], if |g| > 1 then g[1] else 0, if |g| > 2 then g[2] else 0;
    GroupValues(g, b1, b2, b3);
    hide ValueOf, CharOf, EncodeGroup, ValueAt, JoinValues;
    JoinSplit(g, b1, b2, b3);
  }

  lemma JoinSplit(g: seq<Byte>, b1: Byte, b2: Byte, b3: Byte)
    requires 1 <= |g| <= 3 && b1 == g[0] && b2 == (if |g| > 1 then g[1] else 0) && b3 == (if |g| > 2 then g[2] else 0)
    ensures JoinValues(b1 / 4, b1 % 4 * 16 + b2 / 16,
                       if |g| > 1 then b2 % 16 * 4 + b3 / 64 else -1, if |g| > 2 then b3 % 64 else -1) == g
  {
    GroupArithmetic(b1, b2, b3);
    assert LowByte(b1) == b1 && LowByte(b2) == b2 && LowByte(b3) == b3;
    hide LowByte;
    assert g == [b1] + (if |g| > 1 then [b2] else []) + (if |g| > 2 then [b3] else []);
  }

  lemma GroupValues(g: seq<Byte>, b1: Byte, b2: Byte, b3: Byte)
    requires 1 <= |g| <= 3 && b1 == g[0] && b2 == (if |g| > 1 then g[1] else 0) && b3 == (if |g| > 2 then g[2] else 0)
    ensures var e := EncodeGroup(g);
            && ValueAt(e, 0, false) == Some(b1 / 4)
            && ValueAt(e, 1, false) == Some(b1 % 4 * 16 + b2 / 16)
            && ValueAt(e, 2, true) == Some(if |g| > 1 then b2 % 16 * 4 + b3 / 64 else -1)
            && ValueAt(e, 3, true) == Some(if |g| > 2 then b3 % 64 else -1)
  {
    ValueOfChar(b1 / 4);
    ValueOfChar(b1 % 4 * 16 + b2 / 16);
    ValueOfChar(b2 % 16 * 4 + b3 / 64);
    ValueOfChar(b3 % 64);
    hide ValueOf, CharOf;
  }

  lemma GroupArithmetic(b1: Byte, b2: Byte, b3: Byte)
    ensures b1 / 4 * 4 + (b1 % 4 * 16 + b2 / 16) / 16 == b1
    ensures (b1 % 4 * 16 + b2 / 16) % 16 * 16 + (b2 % 16 * 4 + b3 / 64) / 4 == b2
    ensures (b2 % 16 * 4 + b3 / 64) % 4 * 64 + b3 % 64 == b3
  {
  }

  lemma EncodeGroupShape(g: seq<Byte>)
    requires 1 <= |g| <= 3
    ensures var e := EncodeGroup(g);
            |e| == 4 && forall i :: 0 <= i < 4 ==> (e[i] == '=' <==> i > |g|) && !IsWhitespace(e[i])
  {
  }

  lemma {:induction false} CleanStays(s: string)
    requires forall i :: 0 <= i < |s| ==> !IsWhitespace(s[i])
    ensures WithoutWhitespace(s) == s
  {
    if s != "" {
      CleanStays(s[1..]);
    }
  }

  lemma {:induction false} EncodeIsClean(bytes: seq<Byte>)
    ensures |Encode(bytes)| % 4 == 0
    ensures forall i :: 0 <= i < |Encode(bytes)| ==> !IsWhitespace(Encode(bytes)[i])
  {
    hide EncodeGroup, IsWhitespace;
    if bytes != [] {
      var n := Min(3, |bytes|);
      EncodeGroupShape(bytes[..n]);
      EncodeIsClean(bytes[n..]);
      EncodeStep(bytes);
      hide Encode;
      CleanConcat(EncodeGroup(bytes[..n]), Encode(bytes[n..]));
    }
  }

  lemma EncodeStep(bytes: seq<Byte>)
    requires bytes != []
    ensures Encode(bytes) == EncodeGroup(bytes[..Min(3, |bytes|)]) + Encode(bytes[Min(3, |bytes|)..])
  {
    hide EncodeGroup;
  }

  lemma CleanConcat(a: string, b: string)
    requires (forall i :: 0 <= i < |a| ==> !IsWhitespace(a[i])) && forall i :: 0 <= i < |b| ==> !IsWhitespace(b[i])
    ensures forall i :: 0 <= i < |a + b| ==> !IsWhitespace((a + b)[i])
  {
    hide IsWhitespace;
  }

  lemma {:induction false} GroupsRoundTrip(bytes: seq<Byte>)
    ensures DecodeGroups(Encode(bytes)) == Some(bytes)
  {
    if bytes != [] {
      var n := Min(3, |bytes|);
      var e, rest := EncodeGroup(bytes[..n]), Encode(bytes[n..]);
      EncodeGroupShape(bytes[..n]);
      GroupRoundTrip(bytes[..n]);
      GroupsRoundTrip(bytes[n..]);
      hide EncodeGroup, DecodeGroup;
      assert Encode(bytes) == e + rest;
      assert (e + rest)[..4] == e && (e + rest)[4..] == rest;
      assert bytes[..n] + bytes[n..] == bytes;
    }
  }

  /** Decoding gives back what was encoded. */
  lemma RoundTrip(bytes: seq<Byte>)
    ensures Decode(Encode(bytes)) == Some(bytes)
  {
    EncodeIsClean(bytes);
    CleanStays(Encode(bytes));
    GroupsRoundTrip(bytes);
  }

  // The URL-safe form

  function UrlSafeChar(c: char): char {
    if c == '+' then '-' else if c == '/' then '_' else c
  }

  function PlainChar(c: char): char {
    if c == '-' then '+' else if c == '_' then '/' else c
  }

  function MapString(f: char -> char, s: string): string {
    seq(|s|, i requires 0 <= i < |s| => f(s[i]))
  }

  function StripPadding(s: string): string {
    if s != "" && s[|s| - 1] == '=' then StripPadding(s[..|s| - 1]) else s
  }

  function Padding(n: nat): string {
    seq(n, _ => '=')
  }

  /** Padded to a multiple of four. */
  function Pad(s: string): string {
    s + Padding((4 - |s| % 4) % 4)
  }

  function ToBase64Url(bytes: seq<Byte>): string {
    StripPadding(MapString(UrlSafeChar, Encode(bytes)))
  }

  function FromBase64Url(s: string): Option<seq<Byte>> {
    Decode(Pad(MapString(PlainChar, s)))
  }

  predicate IsUrlSafe(c: char) {
    'A' <= c <= 'Z' || 'a' <= c <= 'z' || '0' <= c <= '9' || c == '-' || c == '_'
  }

  /** What encoding gives: a body of values, and padding that completes the last group. */
  lemma {:induction false} EncodeShape(bytes: seq<Byte>) returns (body: string, pad: nat)
    ensures Encode(bytes) == body + Padding(pad) && pad == (4 - |body| % 4) % 4
    ensures forall i :: 0 <= i < |body| ==> ValueOf(body[i]).Some?
    ensures bytes != [] ==> body != ""
  {
    hide EncodeGroup, ValueOf, Padding;
    if bytes == [] {
      body, pad := "", 0;
      NoPadding();
    } else if |bytes| <= 3 {
      GroupBody(bytes);
      EncodeLast(bytes);
      body, pad := EncodeGroup(bytes)[..|bytes| + 1], 3 - |bytes|;
    } else {
      var rest;
      rest, pad := EncodeShape(bytes[3..]);
      GroupBody(bytes[..3]);
      EncodeMore(bytes);
      hide Encode;
      body := EncodeGroup(bytes[..3]) + rest;
      BodyMore(EncodeGroup(bytes[..3]), rest);
      ConcatAssoc(EncodeGroup(bytes[..3]), rest, Padding(pad));
    }
  }

  lemma NoPadding()
    ensures Padding(0) == ""
  {
  }

  lemma EncodeLast(bytes: seq<Byte>)
    requires 1 <= |bytes| <= 3
    ensures Encode(bytes) == EncodeGroup(bytes)
  {
    hide EncodeGroup;
    EncodeStep(bytes);
    assert bytes[|bytes|..] == [] && bytes[..|bytes|] == bytes;
    assert EncodeGroup(bytes) + "" == EncodeGroup(bytes);
  }

  lemma EncodeMore(bytes: seq<Byte>)
    requires |bytes| > 3
    ensures Encode(bytes) == EncodeGroup(bytes[..3]) + Encode(bytes[3..])
  {
    hide EncodeGroup;
  }

  lemma BodyMore(e: string, rest: string)
    requires |e| == 4 && e == e[..4] + Padding(0)
    requires (forall i :: 0 <= i <= 3 ==> ValueOf(e[i]).Some?)
             && (forall i :: 0 <= i < |rest| ==> ValueOf(rest[i]).Some?)
    ensures forall i :: 0 <= i < |e + rest| ==> ValueOf((e + rest)[i]).Some?
    ensures |e + rest| % 4 == |rest| % 4
  {
    hide ValueOf;
  }

  lemma GroupBody(g: seq<Byte>)
    requires 1 <= |g| <= 3
    ensures var e := EncodeGroup(g);
            |e| == 4 && e == e[..|g| + 1] + Padding(3 - |g|) && forall i :: 0 <= i <= |g| ==> ValueOf(e[i]).Some?
  {
    EncodeGroupShape(g);
    var b1, b2, b3 := g[0], if |g| > 1 then g[1] else 0, if |g| > 2 then g[2] else 0;
    ValueOfChar(b1 / 4);
    ValueOfChar(b1 % 4 * 16 + b2 / 16);
    ValueOfChar(b2 % 16 * 4 + b3 / 64);
    ValueOfChar(b3 % 64);
    hide ValueOf, CharOf;
  }

  lemma {:induction false} StripPadded(s: string, n: nat)
    requires s == "" || s[|s| - 1] != '='
    ensures StripPadding(s + Padding(n)) == s
    decreases n
  {
    if n == 0 {
      assert s + Padding(0) == s;
    } else {
      var t := s + Padding(n);
      assert t[..|t| - 1] == s + Padding(n - 1);
      StripPadded(s, n - 1);
    }
  }

  lemma MapConcat(f: char -> char, a: string, b: string)
    ensures MapString(f, a + b) == MapString(f, a) + MapString(f, b)
  {
  }

  lemma PaddingStays(n: nat)
    ensures MapString(UrlSafeChar, Padding(n)) == Padding(n)
  {
    assert UrlSafeChar('=') == '=';
  }

  lemma CharMaps(c: char)
    requires ValueOf(c).Some?
    ensures PlainChar(UrlSafeChar(c)) == c && IsUrlSafe(UrlSafeChar(c)) && UrlSafeChar(c) != '='
  {
  }

  lemma SafeBody(body: string)
    requires forall i :: 0 <= i < |body| ==> ValueOf(body[i]).Some?
    ensures var safe := MapString(UrlSafeChar, body);
            && |safe| == |body| && MapString(PlainChar, safe) == body
            && forall i :: 0 <= i < |safe| ==> IsUrlSafe(safe[i]) && safe[i] != '='
  {
    hide ValueOf, UrlSafeChar, PlainChar, IsUrlSafe;
    var safe := MapString(UrlSafeChar, body);
    forall i | 0 <= i < |body|
      ensures PlainChar(safe[i]) == body[i] && IsUrlSafe(safe[i]) && safe[i] != '='
    {
      CharMaps(body[i]);
    }
    assert MapString(PlainChar, safe) == body;
  }

  lemma UrlText(bytes: seq<Byte>, body: string, pad: nat)
    requires Encode(bytes) == body + Padding(pad)
    requires var safe := MapString(UrlSafeChar, body); safe == "" || safe[|safe| - 1] != '='
    ensures ToBase64Url(bytes) == MapString(UrlSafeChar, body)
  {
    hide Encode, Padding, MapString, StripPadding;
    MapConcat(UrlSafeChar, body, Padding(pad));
    PaddingStays(pad);
    StripPadded(MapString(UrlSafeChar, body), pad);
  }

  lemma Padded(body: string, pad: nat)
    requires pad == (4 - |body| % 4) % 4
    ensures Pad(body) == body + Padding(pad)
    ensures MapString(PlainChar, MapString(UrlSafeChar, body)) == body ==>
              FromBase64Url(MapString(UrlSafeChar, body)) == Decode(body + Padding(pad))
  {
    hide Decode, MapString, Padding;
  }

  /** The text uses only URL-safe characters, is empty only for no bytes, and decodes to the bytes. */
  lemma UrlRoundTrip(bytes: seq<Byte>)
    ensures FromBase64Url(ToBase64Url(bytes)) == Some(bytes)
    ensures forall i :: 0 <= i < |ToBase64Url(bytes)| ==> IsUrlSafe(ToBase64Url(bytes)[i])
    ensures bytes != [] ==> ToBase64Url(bytes) != ""
  {
    hide *;
    var body, pad := EncodeShape(bytes);
    RoundTrip(bytes);
    var safe := MapString(UrlSafeChar, body);
    SafeBody(body);
    UrlText(bytes, body, pad);
    Padded(body, pad);
  }

  // What is encoded, as numbers

  /** The place of a character in the alphabet; padding counts as zero. */
  function Digit(c: char): int {
    if ValueOf(c).Some? then ValueOf(c).value else 0
  }

  /**
   The alphabet: capital letters, small letters and digits, each in order, then two signs, for which the
   URL-safe form has two others.
   */
  lemma AlphabetIs(v: Sextet)
    ensures CharOf(0) == 'A' && CharOf(25) == 'Z' && CharOf(26) == 'a' && CharOf(51) == 'z'
    ensures CharOf(52) == '0' && CharOf(61) == '9' && CharOf(62) == '+' && CharOf(63) == '/'
    ensures v < 61 && v != 25 && v != 51 ==> CharOf(v + 1) as int == CharOf(v) as int + 1
    ensures UrlSafeChar(CharOf(v)) == if v == 62 then '-' else if v == 63 then '_' else CharOf(v)
  {
  }

  /** Up to three bytes as a number of three; missing bytes count as zero. */
  function Number(g: seq<Byte>): int
    requires 1 <= |g| <= 3
  {
    var b1: int := g[0];
    var b2: int := if |g| > 1 then g[1] else 0;
    var b3: int := if |g| > 2 then g[2] else 0;
    b1 * 65536 + b2 * 256 + b3
  }

  /** The characters of a group are the digits, to base 64, of the number whose digits to base 256 are its bytes. */
  lemma GroupIsNumber(g: seq<Byte>)
    requires 1 <= |g| <= 3
    ensures var e := EncodeGroup(g);
            && |e| == 4
            && (forall i :: 0 <= i < 4 ==> (e[i] == '=' <==> i > |g|))
            && Digit(e[0]) * 262144 + Digit(e[1]) * 4096 + Digit(e[2]) * 64 + Digit(e[3]) == Number(g)
  {
    var b1, b2, b3 := g[0], if |g| > 1 then g[1] else 0, if |g| > 2 then g[2] else 0;
    ValueOfChar(b1 / 4);
    ValueOfChar(b1 % 4 * 16 + b2 / 16);
    ValueOfChar(b2 % 16 * 4 + b3 / 64);
    ValueOfChar(b3 % 64);
    hide ValueOf, CharOf;
  }

  // What is decoded

  lemma {:induction false} WithoutConcat(a: string, b: string)
    ensures WithoutWhitespace(a + b) == WithoutWhitespace(a) + WithoutWhitespace(b)
    decreases |a|
  {
    hide IsWhitespace;
    if a == "" {
      assert a + b == b;
    } else {
      assert (a + b)[1..] == a[1..] + b;
      WithoutConcat(a[1..], b);
    }
  }

  /** Whitespace does not matter, wherever it is. */
  lemma WhitespaceIsIgnored(a: string, c: char, b: string)
    requires IsWhitespace(c)
    ensures Decode(a + [c] + b) == Decode(a + b)
  {
    hide DecodeGroups;
    WithoutConcat(a + [c], b);
    WithoutConcat(a, [c]);
    WithoutConcat(a, b);
    assert WithoutWhitespace([c]) == "";
    hide WithoutWhitespace, IsWhitespace;
    assert WithoutWhitespace(a) + "" == WithoutWhitespace(a);
  }

  /** Whole groups of characters of the alphabet, of which the last two may be padding. */
  predicate Readable(s: string) {
    && |s| % 4 == 0
    && forall i :: 0 <= i < |s| ==> ValueOf(s[i]).Some? || (i % 4 >= 2 && s[i] == '=')
  }

  /** Everything else is an error. */
  lemma {:induction false} DecodesIffReadable(s: string)
    ensures DecodeGroups(s).Some? <==> Readable(s)
    decreases |s|
  {
    if s != "" {
      var n := Min(4, |s|);
      var g, rest := s[..n], s[n..];
      DecodesIffReadable(rest);
      GroupIffReadable(g);
      ReadableConcat(g, rest);
      hide DecodeGroup, Readable;
      assert s == g + rest;
    }
  }

  lemma GroupIffReadable(g: string)
    requires 1 <= |g| <= 4
    ensures DecodeGroup(g).Some? <==> Readable(g)
  {
    hide ValueOf, JoinValues;
  }

  lemma ReadableConcat(g: string, rest: string)
    requires |g| == 4 || rest == ""
    ensures Readable(g + rest) <==> Readable(g) && Readable(rest)
  {
    hide ValueOf;
    var s := g + rest;
    if |g| == 4 {
      assert forall i :: 0 <= i < |rest| ==> rest[i] == s[i + 4];
      assert forall i :: 0 <= i < 4 ==> g[i] == s[i];
    } else {
      assert s == g;
    }
  }
}
