/**
 References to attachments: JSON text in URL-safe base64 behind a scheme. Texts are their UTF-8 bytes;
 the JSON library is abstract.
 */
module AttachmentRef {
  import opened Common
  import opened Base64

  type Text = seq<Byte>

  // Percent escapes

  function HexDigit(v: int, upper: bool): char
    requires 0 <= v < 16
  {
    if v < 10 then '0' + v as char else (if upper then 'A' else 'a') + (v - 10) as char
  }

  function HexValue(c: char): Option<int> {
    if '0' <= c <= '9' then Some((c - '0') as int)
    else if 'A' <= c <= 'F' then Some((c - 'A') as int + 10)
    else if 'a' <= c <= 'f' then Some((c - 'a') as int + 10)
    else None
  }

  function HexByte(s: string): (r: Option<Byte>)
    requires |s| == 2
  {
    if HexValue(s[0]).Some? && HexValue(s[1]).Some? then
      var v := HexValue(s[0]).value * 16 + HexValue(s[1]).value;
      if 0 <= v < 256 then Some(v) else None
    else None
  }

  /** The characters that encodeURIComponent leaves as they are. */
  predicate Unescaped(b: Byte) {
    || 'A' as int <= b <= 'Z' as int || 'a' as int <= b <= 'z' as int || '0' as int <= b <= '9' as int
    || b == '-' as int || b == '_' as int || b == '.' as int || b == '!' as int || b == '~' as int
    || b == '*' as int || b == '\'' as int || b == '(' as int || b == ')' as int
  }

  function EscapeByte(b: Byte, upper: bool): string {
    ['%', HexDigit(b / 16, upper), HexDigit(b % 16, upper)]
  }

  /** encodeURIComponent, on the UTF-8 bytes of a text. */
  function Escape(t: Text): string {
    if t == [] then ""
    else (if Unescaped(t[0]) then [t[0] as char] else EscapeByte(t[0], true)) + Escape(t[1..])
  }

  /** All bytes as escapes. */
  function EscapeAll(t: Text): string {
    if t == [] then "" else EscapeByte(t[0], false) + EscapeAll(t[1..])
  }

  /** The bytes of an escaped string: an escape is a byte, and every other character is its code. */
  function Scan(s: string): Text {
    if s == "" then []
    else if s[0] == '%' then
      var hex := if |s| >= 3 then HexByte(s[1..3]) else None;
      [if hex.Some? then hex.value else 0] + Scan(s[Min(3, |s|)..])
    else [LowByte(s[0] as int)] + Scan(s[1..])
  }

  method Utf8Bytes(escaped: string) returns (bytes: Text)
    ensures bytes == Scan(escaped)
  {
    bytes := [];
    var index := 0;
    assert escaped[0..] == escaped && [] + Scan(escaped) == Scan(escaped);
    while index < |escaped|
      invariant index <= |escaped| && bytes + Scan(escaped[index..]) == Scan(escaped)
    {
      var rest := escaped[index..];
      ghost var before := bytes;
      if escaped[index] == '%' {
        var hex := if index + 3 <= |escaped| then HexByte(escaped[index + 1..index + 3]) else None;
        assert |rest| >= 3 ==> rest[1..3] == escaped[index + 1..index + 3];
        var b: Byte := if hex.Some? then hex.value else 0;
        bytes := bytes + [b];
        index := Min(index + 3, |escaped|);
        assert rest[Min(3, |rest|)..] == escaped[index..];
        ConcatAssoc(before, [b], Scan(escaped[index..]));
      } else {
        var b := LowByte(escaped[index] as int);
        bytes := bytes + [b];
        index := index + 1;
        assert rest[1..] == escaped[index..];
        ConcatAssoc(before, [b], Scan(escaped[index..]));
      }
    }
    assert bytes + [] == bytes;
  }

  /** decodeURIComponent, to the UTF-8 bytes of a text. */
  function Unescape(s: string): Option<Text> {
    if s == "" then Some([])
    else if s[0] == '%' then
      if |s| < 3 || HexByte(s[1..3]).None? then None
      else
        match Unescape(s[3..])
        case None => None
        case Some(rest) => Some([HexByte(s[1..3]).value] + rest)
    else if s[0] as int >= 128 then None
    else
      match Unescape(s[1..])
      case None => None
      case Some(rest) => Some([LowByte(s[0] as int)] + rest)
  }

  lemma HexRoundTrip(b: Byte, upper: bool)
    ensures HexByte(EscapeByte(b, upper)[1..3]) == Some(b)
  {
    var s := EscapeByte(b, upper)[1..3];
    assert s[0] == HexDigit(b / 16, upper) && s[1] == HexDigit(b % 16, upper);
    DigitRoundTrip(b / 16, upper);
    DigitRoundTrip(b % 16, upper);
  }

  lemma DigitRoundTrip(v: int, upper: bool)
    requires 0 <= v < 16
    ensures HexValue(HexDigit(v, upper)) == Some(v)
  {
  }

  lemma {:induction false} ScanEscape(t: Text)
    ensures Scan(Escape(t)) == t
    decreases |t|
  {
    hide Scan, EscapeByte, Unescaped;
    if t == [] {
      NothingScanned();
    } else {
      ScanEscape(t[1..]);
      var rest := Escape(t[1..]);
      if Unescaped(t[0]) {
        ScanPlain(t[0], rest);
      } else {
        ScanEscaped(t[0], rest);
      }
      assert t == [t[0]] + t[1..];
    }
  }

  lemma NothingScanned()
    ensures Scan("") == []
  {
  }

  lemma ScanPlain(b: Byte, rest: string)
    requires Unescaped(b)
    ensures Scan([b as char] + rest) == [b] + Scan(rest)
  {
    assert ([b as char] + rest)[1..] == rest;
  }

  lemma ScanEscaped(b: Byte, rest: string)
    ensures Scan(EscapeByte(b, true) + rest) == [b] + Scan(rest)
  {
    hide HexByte;
    var e := EscapeByte(b, true);
    HexRoundTrip(b, true);
    assert (e + rest)[1..3] == e[1..3] && (e + rest)[3..] == rest;
  }

  lemma {:induction false} UnescapeAll(t: Text)
    ensures Unescape(EscapeAll(t)) == Some(t)
    decreases |t|
  {
    if t != [] {
      UnescapeAll(t[1..]);
      var e, rest := EscapeByte(t[0], false), EscapeAll(t[1..]);
      HexRoundTrip(t[0], false);
      assert (e + rest)[1..3] == e[1..3] && (e + rest)[3..] == rest;
      assert t == [t[0]] + t[1..];
    }
  }

  // References

  datatype Ref = Ref(ossKey: Text, mimeType: Option<Text>, originalName: Option<Text>, size: Option<int>,
                     sha256: Option<Text>)

  /** A field of a parsed JSON object. */
  datatype Field = Absent | Str(text: Text) | Num(value: int) | OtherValue

  datatype Record = Record(ossKey: Field, mimeType: Field, originalName: Field, size: Field, sha256: Field)

  /** `parse` gives None if the text is not JSON, or JSON but no object. */
  datatype Json = Json(stringify: Ref -> Text, parse: Text -> Option<Record>)

  const MAX_SAFE_INTEGER := 9007199254740991

  predicate IsSha256(t: Text) {
    |t| == 64 && forall i :: 0 <= i < 64 ==> '0' as int <= t[i] <= '9' as int || 'a' as int <= t[i] <= 'f' as int
  }

  predicate ValidIntegrity(size: Field, sha256: Field) {
    && size.Num? && 0 < size.value <= MAX_SAFE_INTEGER
    && sha256.Str? && IsSha256(sha256.text)
  }

  function StrField(t: Option<Text>): Field {
    if t.Some? then Str(t.value) else Absent
  }

  function NumField(n: Option<int>): Field {
    if n.Some? then Num(n.value) else Absent
  }

  function RecordOf(ref: Ref): Record {
    Record(Str(ref.ossKey), StrField(ref.mimeType), StrField(ref.originalName), NumField(ref.size),
           StrField(ref.sha256))
  }

  const SCHEME := "cindy-oss-attach"
  const LEGACY_SCHEME := "xdt-oss-attach"
  const INFIX := "://m/"

  predicate Complete(ref: Ref) {
    && ref.ossKey != []
    && (ref.size.Some? <==> ref.sha256.Some?)
    && (ref.size.Some? ==> ValidIntegrity(NumField(ref.size), StrField(ref.sha256)))
  }

  /** None if the reference is refused. */
  function Build(json: Json, legacy: bool, ref: Ref): Option<string> {
    if !Complete(ref) then None
    else Some((if legacy then LEGACY_SCHEME else SCHEME) + INFIX + ToBase64Url(Scan(Escape(json.stringify(ref)))))
  }

  /** Everything before the first slash. */
  function FirstSegment(s: string): string {
    if s == "" || s[0] == '/' then "" else [s[0]] + FirstSegment(s[1..])
  }

  function Accept(r: Record): Option<Ref> {
    if !r.ossKey.Str? || r.ossKey.text == [] then None
    else if (r.size == Absent) != (r.sha256 == Absent) then None
    else if r.size != Absent && !ValidIntegrity(r.size, r.sha256) then None
    else
      Some(Ref(r.ossKey.text,
               if r.mimeType.Str? then Some(r.mimeType.text) else None,
               if r.originalName.Str? then Some(r.originalName.text) else None,
               if r.size.Num? then Some(r.size.value) else None,
               if r.sha256.Str? then Some(r.sha256.text) else None))
  }

  /** The text in a segment: its bytes, through escapes. */
  function SegmentText(segment: string): Option<Text> {
    match FromBase64Url(segment)
    case None => None
    case Some(bytes) => Unescape(EscapeAll(bytes))
  }

  function Parse(json: Json, s: string): Option<Ref> {
    var prefix := if SCHEME + INFIX <= s then SCHEME + INFIX
                  else if LEGACY_SCHEME + INFIX <= s then LEGACY_SCHEME + INFIX
                  else "";
    if prefix == "" then None
    else
      var segment := FirstSegment(s[|prefix|..]);
      if segment == "" then None
      else
        match SegmentText(segment)
        case None => None
        case Some(text) =>
          match json.parse(text)
          case None => None
          case Some(r) => Accept(r)
  }

  lemma {:induction false} WholeSegment(s: string)
    requires forall i :: 0 <= i < |s| ==> s[i] != '/'
    ensures FirstSegment(s) == s
  {
    if s != "" {
      WholeSegment(s[1..]);
    }
  }

  lemma PrefixesDiffer(rest: string)
    ensures !(SCHEME + INFIX <= LEGACY_SCHEME + INFIX + rest)
  {
    assert (SCHEME + INFIX)[0] == 'c';
    assert (LEGACY_SCHEME + INFIX + rest)[0] == 'x';
  }

  lemma AcceptsComplete(ref: Ref)
    requires Complete(ref)
    ensures Accept(RecordOf(ref)) == Some(ref)
  {
  }

  /** 64 hexadecimal digits, the letters in lower case. */
  predicate IsHash(t: Text) {
    |t| == 64 && forall i :: 0 <= i < |t| ==> 48 <= t[i] <= 57 || 97 <= t[i] <= 102
  }

  /**
   A parsed object is a reference exactly if it has a key, and size and hash are both valid or both
   absent; other fields of the wrong type count as absent.
   */
  lemma AcceptsExactly(r: Record)
    ensures Accept(r).Some?
       <==> r.ossKey.Str? && r.ossKey.text != []
            && ((r.size.Absent? && r.sha256.Absent?)
                || (r.size.Num? && r.sha256.Str? && 0 < r.size.value < 9007199254740992 && IsHash(r.sha256.text)))
    ensures Accept(r).Some? ==>
              var ref := Accept(r).value;
              && r.ossKey == Str(ref.ossKey) && r.size == NumField(ref.size) && r.sha256 == StrField(ref.sha256)
              && (if r.mimeType.Str? then ref.mimeType == Some(r.mimeType.text) else ref.mimeType == None)
              && (if r.originalName.Str? then ref.originalName == Some(r.originalName.text)
                  else ref.originalName == None)
  {
  }

  /**
   A reference is refused exactly without a key, or with half or invalid integrity data; and parsing
   what was built gives back the reference, under either scheme.
   */
  lemma ParseBuild(json: Json, legacy: bool, ref: Ref)
    requires Complete(ref) ==> json.stringify(ref) != [] && json.parse(json.stringify(ref)) == Some(RecordOf(ref))
    ensures Build(json, legacy, ref).Some?
       <==> ref.ossKey != [] && ((ref.size.None? && ref.sha256.None?) ||
                                 (ref.size.Some? && ref.sha256.Some? && 0 < ref.size.value < 9007199254740992
                                  && IsHash(ref.sha256.value)))
    ensures Build(json, legacy, ref).Some? ==> Parse(json, Build(json, legacy, ref).value) == Some(ref)
  {
    if Complete(ref) {
      BuiltIsParsed(json, legacy, ref);
    }
  }

  lemma BuiltIsParsed(json: Json, legacy: bool, ref: Ref)
    requires Complete(ref)
    requires json.stringify(ref) != [] && json.parse(json.stringify(ref)) == Some(RecordOf(ref))
    ensures Build(json, legacy, ref).Some? && Parse(json, Build(json, legacy, ref).value) == Some(ref)
  {
    var text := json.stringify(ref);
    ScanEscape(text);
    UrlRoundTrip(text);
    UnescapeAll(text);
    var segment := ToBase64Url(text);
    SlashFree(segment);
    WholeSegment(segment);
    AcceptsComplete(ref);
    PrefixesDiffer(segment);
    var prefix := (if legacy then LEGACY_SCHEME else SCHEME) + INFIX;
    var s := Build(json, legacy, ref).value;
    assert s == prefix + segment;
    hide ToBase64Url, FromBase64Url, Scan, Escape, Unescape, EscapeAll, FirstSegment, Accept, Complete;
    assert s[|prefix|..] == segment;
    assert s[..|prefix|] == prefix;
  }

  lemma SlashFree(s: string)
    requires forall i :: 0 <= i < |s| ==> IsUrlSafe(s[i])
    ensures forall i :: 0 <= i < |s| ==> s[i] != '/'
  {
  }

  lemma SchemesAre()
    ensures SCHEME + INFIX == "cindy-oss-attach://m/" && LEGACY_SCHEME + INFIX == "xdt-oss-attach://m/"
  {
  }

  lemma SegmentBytes(segment: string)
    ensures SegmentText(segment) == FromBase64Url(segment)
  {
    hide FromBase64Url, Unescape, EscapeAll;
    if FromBase64Url(segment).Some? {
      UnescapeAll(FromBase64Url(segment).value);
    }
  }

  lemma BehindScheme(json: Json, legacy: bool, segment: string, rest: string)
    requires FirstSegment(rest) == segment
    ensures Parse(json, (if legacy then LEGACY_SCHEME else SCHEME) + INFIX + rest)
         == if segment == "" || SegmentText(segment).None? || json.parse(SegmentText(segment).value).None? then None
            else Accept(json.parse(SegmentText(segment).value).value)
  {
    hide SegmentText, FirstSegment, Accept;
    PrefixesDiffer(rest);
    var prefix := (if legacy then LEGACY_SCHEME else SCHEME) + INFIX;
    var s := prefix + rest;
    assert prefix != "" && s[..|prefix|] == prefix && s[|prefix|..] == rest;
  }

  lemma {:induction false} SegmentEnds(segment: string, tail: string)
    requires forall i :: 0 <= i < |segment| ==> segment[i] != '/'
    requires tail == "" || tail[0] == '/'
    ensures FirstSegment(segment + tail) == segment
  {
    if segment != "" {
      SegmentEnds(segment[1..], tail);
      assert (segment + tail)[1..] == segment[1..] + tail;
    }
  }

  /**
   What is parsed: behind one of the two schemes, the segment up to the next slash, decoded from URL-safe
   base64; what follows it does not matter.
   */
  lemma SegmentIsParsed(json: Json, legacy: bool, segment: string, tail: string)
    requires forall i :: 0 <= i < |segment| ==> segment[i] != '/'
    requires tail == "" || tail[0] == '/'
    ensures var text := FromBase64Url(segment);
            Parse(json, (if legacy then "xdt-oss-attach://m/" else "cindy-oss-attach://m/") + segment + tail)
            == if segment == "" || text.None? || json.parse(text.value).None? then None
               else Accept(json.parse(text.value).value)
  {
    hide *;
    SchemesAre();
    SegmentEnds(segment, tail);
    BehindScheme(json, legacy, segment, segment + tail);
    var scheme := (if legacy then LEGACY_SCHEME else SCHEME) + INFIX;
    ConcatAssoc(scheme, segment, tail);
    SegmentBytes(segment);
  }

  /** Nothing else is a reference. */
  lemma OnlySchemesAreParsed(json: Json, s: string)
    requires !("cindy-oss-attach://m/" <= s) && !("xdt-oss-attach://m/" <= s)
    ensures Parse(json, s).None?
  {
    hide FirstSegment, SegmentText, Accept;
    SchemesAre();
  }

  /** Whatever is parsed could have been built. */
  lemma ParsedIsComplete(json: Json, s: string)
    ensures Parse(json, s).Some? ==> Complete(Parse(json, s).value)
  {
  }
}
