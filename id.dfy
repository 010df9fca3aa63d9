/**
 * Quanta ids (Sources/Quanta/Id.swift): a UUID's 16 bytes in URL-safe base64
 * without padding (RFC 4648 section 5, padding left off as section 3.2 allows),
 * the decoder that restores the padding, and the textual UUID form that the
 * id and app-id setters recognise.
 */
module QuantaId {

  import opened Wrappers
  import opened Text

  /** A UUID as its 16 bytes (`uuid_t`). */
  type Uuid = s: seq<byte> | |s| == 16 witness seq(16, _ => 0)

  // ---------------------------------------------------------------------------
  // Standard base64 (RFC 4648 section 4)

  /** The character of a 6-bit value in the standard alphabet. */
  function SextetChar(v: byte): (c: char)
    requires v < 64
    ensures SextetValue(c) == Some(v)
    ensures c != '=' && c != '-' && c != '_' && c != '\n'
  {
    if v < 26 then ('A' as int + v as int) as char
    else if v < 52 then ('a' as int + (v as int - 26)) as char
    else if v < 62 then ('0' as int + (v as int - 52)) as char
    else if v == 62 then '+'
    else '/'
  }

  /** The 6-bit value of a character of the standard alphabet; None for any other character. */
  function SextetValue(c: char): (r: Option<byte>)
    ensures r.Some? ==> r.value < 64
    ensures c == '=' ==> r == None
  {
    if 'A' <= c <= 'Z' then Some((c as int - 'A' as int) as byte)
    else if 'a' <= c <= 'z' then Some((c as int - 'a' as int + 26) as byte)
    else if '0' <= c <= '9' then Some((c as int - '0' as int + 52) as byte)
    else if c == '+' then Some(62)
    else if c == '/' then Some(63)
    else None
  }

  function EncodeGroup3(b0: byte, b1: byte, b2: byte): string
  {
    [SextetChar(b0 >> 2), SextetChar(((b0 & 3) << 4) | (b1 >> 4)),
     SextetChar(((b1 & 15) << 2) | (b2 >> 6)), SextetChar(b2 & 63)]
  }

  function EncodeGroup2(b0: byte, b1: byte): string
  {
    [SextetChar(b0 >> 2), SextetChar(((b0 & 3) << 4) | (b1 >> 4)), SextetChar((b1 & 15) << 2), '=']
  }

  function EncodeGroup1(b0: byte): string
  {
    [SextetChar(b0 >> 2), SextetChar((b0 & 3) << 4), '=', '=']
  }

  /** `Data.base64EncodedString()` without line breaks. */
  function Base64(bs: seq<byte>): string
  {
    if |bs| == 0 then ""
    else if |bs| == 1 then EncodeGroup1(bs[0])
    else if |bs| == 2 then EncodeGroup2(bs[0], bs[1])
    else EncodeGroup3(bs[0], bs[1], bs[2]) + Base64(bs[3..])
  }

  /** Line breaking of `.lineLength64Characters` with `.endLineWithLineFeed`. */
  function WithLineBreaks(s: string): (r: string)
    ensures |s| <= 64 ==> r == s
    decreases |s|
  {
    if |s| <= 64 then s else s[..64] + "\n" + WithLineBreaks(s[64..])
  }

  /** Three bytes from a quartet of alphabet characters. */
  function DecodeGroup(q: string): Option<seq<byte>>
    requires |q| == 4
  {
    match (SextetValue(q[0]), SextetValue(q[1]), SextetValue(q[2]), SextetValue(q[3]))
    case (Some(v0), Some(v1), Some(v2), Some(v3)) =>
      Some([(v0 << 2) | (v1 >> 4), ((v1 & 15) << 4) | (v2 >> 2), ((v2 & 3) << 6) | v3])
    case _ => None
  }

  /** The final quartet, which may end in one or two '='. */
  function DecodeFinalGroup(q: string): Option<seq<byte>>
    requires |q| == 4
  {
    if q[3] != '=' then DecodeGroup(q)
    else if q[2] == '=' then
      match (SextetValue(q[0]), SextetValue(q[1]))
      case (Some(v0), Some(v1)) => Some([(v0 << 2) | (v1 >> 4)])
      case _ => None
    else
      match (SextetValue(q[0]), SextetValue(q[1]), SextetValue(q[2]))
      case (Some(v0), Some(v1), Some(v2)) => Some([(v0 << 2) | (v1 >> 4), ((v1 & 15) << 4) | (v2 >> 2)])
      case _ => None
  }

  /** `Data(base64Encoded:)` with no options: None unless s is well-formed base64. */
  function Base64Decode(s: string): (r: Option<seq<byte>>)
    decreases |s|
  {
    if s == [] then Some([])
    else if |s| < 4 then None
    else if |s| == 4 then DecodeFinalGroup(s)
    else
      match (DecodeGroup(s[..4]), Base64Decode(s[4..]))
      case (Some(g), Some(rest)) => Some(g + rest)
      case _ => None
  }

  lemma Group3RoundTrip(b0: byte, b1: byte, b2: byte)
    ensures DecodeGroup(EncodeGroup3(b0, b1, b2)) == Some([b0, b1, b2])
  {
    var q := EncodeGroup3(b0, b1, b2);
    assert SextetValue(q[0]) == Some(b0 >> 2);
    assert SextetValue(q[1]) == Some(((b0 & 3) << 4) | (b1 >> 4));
    assert SextetValue(q[2]) == Some(((b1 & 15) << 2) | (b2 >> 6));
    assert SextetValue(q[3]) == Some(b2 & 63);
    assert ((b0 >> 2) << 2) | ((((b0 & 3) << 4) | (b1 >> 4)) >> 4) == b0;
    assert (((((b0 & 3) << 4) | (b1 >> 4)) & 15) << 4) | ((((b1 & 15) << 2) | (b2 >> 6)) >> 2) == b1;
    assert ((((((b1 & 15) << 2) | (b2 >> 6))) & 3) << 6) | (b2 & 63) == b2;
  }

  lemma Group2RoundTrip(b0: byte, b1: byte)
    ensures DecodeFinalGroup(EncodeGroup2(b0, b1)) == Some([b0, b1])
  {
    var q := EncodeGroup2(b0, b1);
    assert SextetValue(q[0]) == Some(b0 >> 2);
    assert SextetValue(q[1]) == Some(((b0 & 3) << 4) | (b1 >> 4));
    assert SextetValue(q[2]) == Some((b1 & 15) << 2);
    assert ((b0 >> 2) << 2) | ((((b0 & 3) << 4) | (b1 >> 4)) >> 4) == b0;
    assert (((((b0 & 3) << 4) | (b1 >> 4)) & 15) << 4) | (((b1 & 15) << 2) >> 2) == b1;
  }

  lemma Group1RoundTrip(b0: byte)
    ensures DecodeFinalGroup(EncodeGroup1(b0)) == Some([b0])
  {
    var q := EncodeGroup1(b0);
    assert SextetValue(q[0]) == Some(b0 >> 2);
    assert SextetValue(q[1]) == Some((b0 & 3) << 4);
    assert ((b0 >> 2) << 2) | (((b0 & 3) << 4) >> 4) == b0;
  }

  /** Decoding undoes encoding for every byte string. */
  lemma {:induction false} Base64RoundTrip(bs: seq<byte>)
    ensures Base64Decode(Base64(bs)) == Some(bs)
    decreases |bs|
  {
    if |bs| == 1 {
      Group1RoundTrip(bs[0]);
      assert bs == [bs[0]];
    } else if |bs| == 2 {
      Group2RoundTrip(bs[0], bs[1]);
      assert bs == [bs[0], bs[1]];
    } else if |bs| >= 3 {
      var e := Base64(bs);
      var g := EncodeGroup3(bs[0], bs[1], bs[2]);
      Group3RoundTrip(bs[0], bs[1], bs[2]);
      assert bs == [bs[0], bs[1], bs[2]] + bs[3..];
      if |bs| == 3 {
        assert bs[3..] == [];
        assert e == g;
        assert g[3] == SextetChar(bs[2] & 63);
        assert Base64Decode(e) == DecodeGroup(g);
        assert bs == [bs[0], bs[1], bs[2]];
      } else {
        Base64Length(bs[3..]);
        assert e[..4] == g && e[4..] == Base64(bs[3..]);
        Base64RoundTrip(bs[3..]);
      }
    }
  }

  lemma {:induction false} Base64Length(bs: seq<byte>)
    ensures |Base64(bs)| == 4 * ((|bs| + 2) / 3)
    decreases |bs|
  {
    if |bs| >= 3 { Base64Length(bs[3..]); }
  }

  /** When the byte count leaves one byte over, base64 ends in "==" and has no other '='. */
  lemma {:induction false} Base64TwoPads(bs: seq<byte>)
    requires |bs| % 3 == 1
    ensures var e := Base64(bs); |e| >= 4 && e[|e| - 2..] == "==" && '=' !in e[..|e| - 2]
    decreases |bs|
  {
    if |bs| >= 3 {
      Base64TwoPads(bs[3..]);
      var e := Base64(bs);
      var g := EncodeGroup3(bs[0], bs[1], bs[2]);
      var t := Base64(bs[3..]);
      assert e == g + t;
      assert e[..|e| - 2] == g + t[..|t| - 2];
      assert e[|e| - 2..] == t[|t| - 2..];
    }
  }

  // ---------------------------------------------------------------------------
  // URL-safe form

  /** '+' to '-' then '/' to '_' (`shorten`, lines 19-20). */
  function ToUrlSafe(s: string): string
  {
    ReplaceChar(ReplaceChar(s, '+', '-'), '/', '_')
  }

  /** '-' to '+' then '_' to '/' (`uuid(fromQuantaId:)`, lines 38-40). */
  function FromUrlSafe(s: string): string
  {
    ReplaceChar(ReplaceChar(s, '-', '+'), '_', '/')
  }

  /** `shorten(uuid:)`: URL-safe base64 of the 16 bytes with the padding removed. */
  function Shorten(u: Uuid): (r: string)
    ensures '+' !in r && '/' !in r && '=' !in r
    ensures |r| == 22
  {
    var e := Base64(u);
    ShortenShape(u);
    RemoveChar(ToUrlSafe(WithLineBreaks(e)), '=')
  }

  /** The shape of Shorten's result: the URL-safe form of the first 22 base64 characters. */
  lemma ShortenShape(u: Uuid)
    ensures var e := Base64(u);
      |e| == 24 && RemoveChar(ToUrlSafe(WithLineBreaks(e)), '=') == ToUrlSafe(e[..22])
  {
    var e := Base64(u);
    Base64Length(u);
    Base64TwoPads(u);
    assert e == e[..22] + "==";
    ReplaceCharConcat(e[..22], "==", '+', '-');
    ReplaceCharConcat(ReplaceChar(e[..22], '+', '-'), "==", '/', '_');
    RemoveCharConcat(ToUrlSafe(e[..22]), "==", '=');
  }

  lemma {:induction false} ReplaceCharConcat(a: string, b: string, x: char, y: char)
    ensures ReplaceChar(a + b, x, y) == ReplaceChar(a, x, y) + ReplaceChar(b, x, y)
  {
    if a != [] {
      assert (a + b)[1..] == a[1..] + b;
      ReplaceCharConcat(a[1..], b, x, y);
    } else {
      assert a + b == b;
    }
  }

  lemma {:induction false} RemoveCharConcat(a: string, b: string, c: char)
    ensures RemoveChar(a + b, c) == RemoveChar(a, c) + RemoveChar(b, c)
  {
    if a != [] {
      assert (a + b)[1..] == a[1..] + b;
      RemoveCharConcat(a[1..], b, c);
    } else {
      assert a + b == b;
    }
  }

  /** No character of standard base64 is '-' or '_'. */
  lemma {:induction false} Base64HasNoUrlChars(bs: seq<byte>)
    ensures '-' !in Base64(bs) && '_' !in Base64(bs)
    decreases |bs|
  {
    if |bs| >= 3 { Base64HasNoUrlChars(bs[3..]); }
  }

  /** FromUrlSafe undoes ToUrlSafe on text without '-' and '_'. */
  lemma {:induction false} UrlSafeRoundTrip(s: string)
    requires '-' !in s && '_' !in s
    ensures FromUrlSafe(ToUrlSafe(s)) == s
  {
    if s != [] {
      UrlSafeRoundTrip(s[1..]);
    }
  }

  /** `base64Str + "="*(4 - n % 4)` when the count is not a multiple of four. */
  function Padded(s: string): (r: string)
    ensures |r| >= |s| && |r| % 4 == 0
    ensures r[..|s|] == s
  {
    var n := |s| % 4;
    if n > 0 then s + seq(4 - n, _ => '=') else s
  }

  datatype IdError = NotBase64 | NotSixteenBytes

  /** `uuid(fromQuantaId:)`: the UUID a Quanta id stands for, or the error it throws. */
  function UuidFromQuantaId(q: string): (r: Result<Uuid, IdError>)
  {
    match Base64Decode(FromUrlSafe(Padded(q)))
    case None => Err(NotBase64)
    case Some(d) => if |d| == 16 then Ok(d) else Err(NotSixteenBytes)
  }

  /** Every UUID comes back from its Quanta id. */
  lemma ShortenRoundTrip(u: Uuid)
    ensures UuidFromQuantaId(Shorten(u)) == Ok(u)
  {
    var e := Base64(u);
    ShortenShape(u);
    assert Shorten(u) == ToUrlSafe(e[..22]);
    Base64TwoPads(u);
    Base64HasNoUrlChars(u);
    NoUrlCharsInPrefix(e, e[..22]);
    RestoreUrlSafe(e, e[..22]);
    assert FromUrlSafe(Padded(Shorten(u))) == e;
    Base64RoundTrip(u);
  }

  lemma RestoreUrlSafe(e: string, p: string)
    requires |e| == 24 && p == e[..22] && e[22..] == "=="
    requires '-' !in p && '_' !in p
    ensures FromUrlSafe(Padded(ToUrlSafe(p))) == e
  {
    var q := ToUrlSafe(p);
    PaddedTwo(q);
    FromUrlSafeConcat(q, "==");
    UrlSafeRoundTrip(p);
    assert e == p + "==";
  }

  lemma PaddedTwo(q: string)
    requires |q| == 22
    ensures Padded(q) == q + "=="
  {
  }

  lemma NoUrlCharsInPrefix(e: string, p: string)
    requires p <= e && '-' !in e && '_' !in e
    ensures '-' !in p && '_' !in p
  {
    assert forall i :: 0 <= i < |p| ==> p[i] == e[i];
  }

  lemma FromUrlSafeConcat(a: string, b: string)
    ensures FromUrlSafe(a + b) == FromUrlSafe(a) + FromUrlSafe(b)
  {
    ReplaceCharConcat(a, b, '-', '+');
    ReplaceCharConcat(ReplaceChar(a, '-', '+'), ReplaceChar(b, '-', '+'), '_', '/');
  }

  lemma {:induction false} DecodeRejectsThreePads(s: string)
    requires |s| >= 4 && |s| % 4 == 0 && s[|s| - 3..] == "==="
    ensures Base64Decode(s) == None
    decreases |s|
  {
    if |s| > 4 {
      assert s[4..][|s[4..]| - 3..] == s[|s| - 3..];
      DecodeRejectsThreePads(s[4..]);
    } else {
      assert s[1] == '=';
    }
  }

  /** An id whose length leaves one character over a multiple of four is not base64. */
  lemma OneOverIsRejected(q: string)
    requires |q| % 4 == 1
    ensures UuidFromQuantaId(q) == Err(NotBase64)
  {
    var p := Padded(q);
    assert p == q + "===";
    FromUrlSafeConcat(q, "===");
    var s := FromUrlSafe(p);
    assert s == FromUrlSafe(q) + "===";
    assert s[|s| - 3..] == "===";
    DecodeRejectsThreePads(s);
  }

  /** Well-formed base64 of any byte string that is not 16 bytes long is refused after
      decoding, whatever its length. */
  lemma WrongSizeIsRejected(bs: seq<byte>)
    requires |bs| != 16
    ensures UuidFromQuantaId(ToUrlSafe(Base64(bs))) == Err(NotSixteenBytes)
  {
    var e := Base64(bs);
    var q := ToUrlSafe(e);
    Base64Length(bs);
    FourTimes((|bs| + 2) / 3);
    assert |q| == |e|;
    assert Padded(q) == q;
    Base64HasNoUrlChars(bs);
    UrlSafeRoundTrip(e);
    Base64RoundTrip(bs);
    assert Base64Decode(FromUrlSafe(Padded(q))) == Some(bs);
  }

  lemma {:induction false} FourTimes(k: nat)
    ensures (4 * k) % 4 == 0
  {
    if k > 0 {
      FourTimes(k - 1);
      assert 4 * k == 4 * (k - 1) + 4;
    }
  }

  // ---------------------------------------------------------------------------
  // Textual UUIDs (`UUID(uuidString:)`)

  function HexValue(c: char): (r: Option<byte>)
    ensures r.Some? ==> r.value < 16
  {
    if '0' <= c <= '9' then Some((c as int - '0' as int) as byte)
    else if 'A' <= c <= 'F' then Some((c as int - 'A' as int + 10) as byte)
    else if 'a' <= c <= 'f' then Some((c as int - 'a' as int + 10) as byte)
    else None
  }

  function HexChar(v: byte): (c: char)
    requires v < 16
    ensures HexValue(c) == Some(v)
    ensures c != '-'
  {
    if v < 10 then ('0' as int + v as int) as char else ('A' as int + v as int - 10) as char
  }

  /** The bytes written by a string of hex digit pairs. */
  function HexBytes(h: string): Option<seq<byte>>
    decreases |h|
  {
    if h == [] then Some([])
    else if |h| < 2 then None
    else
      match (HexValue(h[0]), HexValue(h[1]), HexBytes(h[2..]))
      case (Some(hi), Some(lo), Some(rest)) => Some([(hi << 4) | lo] + rest)
      case _ => None
  }

  /** Two upper-case hex digits per byte. */
  function HexString(bs: seq<byte>): (r: string)
    ensures |r| == 2 * |bs|
    ensures '-' !in r
  {
    if bs == [] then "" else [HexChar(bs[0] >> 4), HexChar(bs[0] & 15)] + HexString(bs[1..])
  }

  lemma {:induction false} HexRoundTrip(bs: seq<byte>)
    ensures HexBytes(HexString(bs)) == Some(bs)
  {
    if bs != [] {
      var h := HexString(bs);
      assert h[2..] == HexString(bs[1..]);
      assert HexValue(h[0]) == Some(bs[0] >> 4);
      assert HexValue(h[1]) == Some(bs[0] & 15);
      HexRoundTrip(bs[1..]);
      assert bs == [bs[0]] + bs[1..];
      assert (((bs[0] >> 4) << 4) | (bs[0] & 15)) == bs[0];
    }
  }

  /** The 32 digit positions of the 8-4-4-4-12 layout, read in order. */
  function UuidDigits(s: string): string
    requires |s| == 36
  {
    s[0..8] + s[9..13] + s[14..18] + s[19..23] + s[24..36]
  }

  /** `UUID(uuidString:)`: 36 characters, '-' at 8, 13, 18 and 23, hex digits elsewhere. */
  function ParseUuid(s: string): (r: Option<Uuid>)
    ensures r.Some? ==> |s| == 36 && s[8] == '-' && s[13] == '-' && s[18] == '-' && s[23] == '-'
  {
    if |s| == 36 && s[8] == '-' && s[13] == '-' && s[18] == '-' && s[23] == '-' then
      match HexBytes(UuidDigits(s))
      case Some(bs) => if |bs| == 16 then Some(bs) else None
      case None => None
    else None
  }

  /** `UUID.uuidString`: the canonical upper-case text of a UUID. */
  function FormatUuid(u: Uuid): (s: string)
    ensures |s| == 36
  {
    var h := HexString(u);
    h[0..8] + "-" + h[8..12] + "-" + h[12..16] + "-" + h[16..20] + "-" + h[20..32]
  }

  lemma FormatParseRoundTrip(u: Uuid)
    ensures ParseUuid(FormatUuid(u)) == Some(u)
  {
    var h := HexString(u);
    var s := FormatUuid(u);
    assert s[0..8] == h[0..8];
    assert s[9..13] == h[8..12];
    assert s[14..18] == h[12..16];
    assert s[19..23] == h[16..20];
    assert s[24..36] == h[20..32];
    assert UuidDigits(s) == h;
    HexRoundTrip(u);
  }

  /** A Quanta id is never mistaken for a textual UUID. */
  lemma ShortenIsNotUuidText(u: Uuid)
    ensures ParseUuid(Shorten(u)) == None
  {
  }
}
