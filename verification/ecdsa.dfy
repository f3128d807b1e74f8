/** Raw ECDSA signatures turned into DER (src/broker/mechanism.c): section 2.2.3
    of RFC 3279 on top of section 8.3 of ITU-T X.690. */
module EcdsaSignature {
  import opened Der
  import opened Optional

  /** A half without its leading zeros, keeping at least one byte. */
  function Strip(half: seq<Byte>): seq<Byte>
    requires half != []
  {
    if |half| > 1 && half[0] == 0 then Strip(half[1..]) else half
  }

  /** The content octets: a zero in front keeps a set high bit from meaning minus. */
  function Content(half: seq<Byte>): seq<Byte>
    requires half != []
  {
    var s := Strip(half);
    StripNonEmpty(half);
    if s[0] >= 0x80 then [0] + s else s
  }

  lemma {:induction false} StripNonEmpty(half: seq<Byte>)
    requires half != []
    ensures 1 <= |Strip(half)| <= |half|
    ensures |Strip(half)| > 1 ==> Strip(half)[0] != 0
  {
    if |half| > 1 && half[0] == 0 {
      StripNonEmpty(half[1..]);
    }
  }

  /** What is appended for one half. The length is written in a single byte, so
      it is the content's length only up to 127. */
  function IntegerOctets(half: seq<Byte>): seq<Byte>
    requires half != []
  {
    [INTEGER, |Content(half)| % 256] + Content(half)
  }

  function Header(n: nat): seq<Byte> {
    if n < 0x80 then [n]
    else if n <= 0xff then [0x81, n]
    else [0x82, n / 256 % 256, n % 256]
  }

  function SequenceOctets(r: seq<Byte>, s: seq<Byte>): seq<Byte>
    requires r != [] && s != []
  {
    var body := IntegerOctets(r) + IntegerOctets(s);
    [SEQUENCE] + Header(|body|) + body
  }

  /** None is the error for an empty or odd-sized input. */
  function RawToDer(raw: seq<Byte>): Option<seq<Byte>> {
    if raw == [] || |raw| % 2 != 0 then None
    else Some(SequenceOctets(raw[..|raw| / 2], raw[|raw| / 2..]))
  }

  method AppendDerInteger(out: seq<Byte>, value: seq<Byte>) returns (appended: seq<Byte>)
    requires value != []
    ensures appended == out + IntegerOctets(value)
  {
    var start := 0;
    while start + 1 < |value| && value[start] == 0
      invariant 0 <= start < |value|
      invariant Strip(value) == Strip(value[start..])
    {
      assert value[start..][1..] == value[start + 1..];
      start := start + 1;
    }
    assert Strip(value) == value[start..];
    appended := out + [INTEGER];
    if value[start] >= 0x80 {
      appended := appended + [(|value| - start + 1) % 256, 0x00];
    } else {
      appended := appended + [(|value| - start) % 256];
    }
    appended := appended + value[start..];
  }

  method EcdsaRawToDer(raw: seq<Byte>) returns (der: Option<seq<Byte>>)
    ensures der == RawToDer(raw)
  {
    var half := |raw| / 2;
    if |raw| == 0 || |raw| % 2 != 0 {
      return None;
    }
    var body := AppendDerInteger([], raw[..half]);
    body := AppendDerInteger(body, raw[half..]);
    assert [] + IntegerOctets(raw[..half]) == IntegerOctets(raw[..half]);
    var out := [SEQUENCE];
    if |body| < 0x80 {
      out := out + [|body|];
    } else if |body| <= 0xff {
      out := out + [0x81, |body|];
    } else {
      out := out + [0x82, |body| / 256 % 256, |body| % 256];
    }
    return Some(out + body);
  }

  // ----- An independent reading of the standard -----

  /** The shortest content of a non-negative INTEGER. */
  predicate Minimal(content: seq<Byte>) {
    && content != []
    && content[0] < 0x80
    && (|content| > 1 && content[0] == 0 ==> content[1] >= 0x80)
  }

  /** A non-negative INTEGER padded on the left to `size` bytes. */
  function Unpack(content: seq<Byte>, size: nat): Option<seq<Byte>> {
    if !Minimal(content) then None
    else
      var magnitude := if content[0] == 0 then content[1..] else content;
      if |magnitude| > size then None
      else Some(Zeros(size - |magnitude|) + magnitude)
  }

  /** Reads a SEQUENCE of exactly two minimal INTEGERs back into raw halves. */
  function DerToRaw(der: seq<Byte>, size: nat): Option<(seq<Byte>, seq<Byte>)> {
    match ReadTag(der, SEQUENCE)
    case None => None
    case Some(outer) =>
      if outer.consumed != |der| then None
      else
        match ReadTag(outer.value, INTEGER)
        case None => None
        case Some(first) =>
          EncodeRead(outer.value);
          match ReadTag(outer.value[first.consumed..], INTEGER)
          case None => None
          case Some(second) =>
            if first.consumed + second.consumed != |outer.value| then None
            else
              var r, s := Unpack(first.value, size), Unpack(second.value, size);
              if r.None? || s.None? then None else Some((r.value, s.value))
  }

  function Zeros(n: nat): seq<Byte> { seq(n, _ => 0) }

  lemma {:induction false} StripPads(half: seq<Byte>)
    requires half != []
    ensures |Strip(half)| <= |half|
    ensures half == Zeros(|half| - |Strip(half)|) + Strip(half)
  {
    StripNonEmpty(half);
    if |half| > 1 && half[0] == 0 {
      var n := |half| - |Strip(half)|;
      StripPads(half[1..]);
      assert half == [0] + half[1..];
      assert Zeros(n) == [0] + Zeros(n - 1);
    }
  }

  lemma {:induction false} StripValue(half: seq<Byte>)
    requires half != []
    ensures BigEndian(Strip(half)) == BigEndian(half)
  {
    if |half| > 1 && half[0] == 0 {
      StripValue(half[1..]);
      LeadingZero(half[1..]);
      assert half == [0] + half[1..];
    }
  }

  lemma {:induction false} LeadingZero(s: seq<Byte>)
    ensures BigEndian([0] + s) == BigEndian(s)
  {
    if s != [] {
      LeadingZero(s[..|s| - 1]);
      assert ([0] + s)[..|s|] == [0] + s[..|s| - 1];
    }
  }

  /** The content is minimal, has the value of the half, and unpacks to it. */
  lemma ContentOfHalf(half: seq<Byte>)
    requires half != []
    ensures Minimal(Content(half))
    ensures BigEndian(Content(half)) == BigEndian(half)
    ensures Unpack(Content(half), |half|) == Some(half)
  {
    StripNonEmpty(half);
    StripPads(half);
    StripValue(half);
    LeadingZero(Strip(half));
    var s := Strip(half);
    var c := Content(half);
    if s == [0] {
      assert half == Zeros(|half|);
      assert Unpack(c, |half|).value == half;
    } else {
      assert (if c[0] == 0 then c[1..] else c) == s;
    }
  }

  /** Unpacking a minimal content is injective. */
  lemma UnpackContent(content: seq<Byte>, half: seq<Byte>)
    requires half != [] && Unpack(content, |half|) == Some(half)
    ensures content == Content(half)
  {
    var m := if content[0] == 0 then content[1..] else content;
    var pad := |half| - |m|;
    StripZeros(half, m, pad);
    if m == [] {
      assert content == [0];
    }
  }

  lemma {:induction false} StripZeros(half: seq<Byte>, m: seq<Byte>, pad: nat)
    requires half != [] && half == Zeros(pad) + m
    requires m != [] ==> m[0] != 0
    ensures Strip(half) == if m == [] then [0] else m
  {
    if pad > 0 && |half| > 1 {
      assert half[0] == 0;
      assert half[1..] == Zeros(pad - 1) + m;
      StripZeros(half[1..], m, pad - 1);
    } else if pad == 0 {
      assert half == m;
    } else {
      assert half == [0] && m == [];
    }
  }

  /** The caller's test: both contents fit the one length byte. */
  predicate ShortHalves(r: seq<Byte>, s: seq<Byte>)
    requires r != [] && s != []
  {
    |Content(r)| < 0x80 && |Content(s)| < 0x80
  }

  lemma HeaderIsLength(n: nat)
    requires n < 0x1_0000
    ensures Header(n) == LengthOctets(n)
  {
    if n >= 0x80 {
      OctetsSize(n);
      assert OctetCount(n / 256) <= 1 && Octets(n / 256) == if n / 256 == 0 then [] else [n / 256];
    }
  }

  lemma ReadPair(first: seq<Byte>, second: seq<Byte>, size: nat)
    requires |first| < 0x80 && |second| < 0x80
    requires Unpack(first, size).Some? && Unpack(second, size).Some?
    ensures DerToRaw(Encode(SEQUENCE, Encode(INTEGER, first) + Encode(INTEGER, second)), size)
         == Some((Unpack(first, size).value, Unpack(second, size).value))
  {
    var body := Encode(INTEGER, first) + Encode(INTEGER, second);
    ReadEncode(SEQUENCE, body, []);
    assert Encode(SEQUENCE, body) + [] == Encode(SEQUENCE, body);
    ReadEncode(INTEGER, first, Encode(INTEGER, second));
    assert body[|Encode(INTEGER, first)|..] == Encode(INTEGER, second);
    ReadEncode(INTEGER, second, []);
    assert Encode(INTEGER, second) + [] == Encode(INTEGER, second);
  }

  lemma ShortRoundTrip(r: seq<Byte>, s: seq<Byte>)
    requires r != [] && s != [] && |r| == |s| && ShortHalves(r, s)
    ensures DerToRaw(SequenceOctets(r, s), |r|) == Some((r, s))
  {
    var body := IntegerOctets(r) + IntegerOctets(s);
    assert IntegerOctets(r) == Encode(INTEGER, Content(r));
    assert IntegerOctets(s) == Encode(INTEGER, Content(s));
    HeaderIsLength(|body|);
    assert SequenceOctets(r, s) == Encode(SEQUENCE, body);
    ContentOfHalf(r);
    ContentOfHalf(s);
    ReadPair(Content(r), Content(s), |r|);
  }

  /** If the output reads back as the two halves, each integer had a proper
      encoding, which is longer than what was written once a content exceeds 127. */
  lemma LongNeverReads(r: seq<Byte>, s: seq<Byte>)
    requires r != [] && |r| == |s|
    requires DerToRaw(SequenceOctets(r, s), |r|) == Some((r, s))
    ensures ShortHalves(r, s)
  {
    var der := SequenceOctets(r, s);
    var body := IntegerOctets(r) + IntegerOctets(s);
    EncodeRead(der);
    var outer := Read(der).value;
    EncodeRead(outer.value);
    var first := Read(outer.value).value;
    var rest := outer.value[first.consumed..];
    EncodeRead(rest);
    var second := Read(rest).value;
    UnpackContent(first.value, r);
    UnpackContent(second.value, s);
    EncodeSize(INTEGER, first.value);
    EncodeSize(INTEGER, second.value);
    assert |outer.value| == |Encode(INTEGER, first.value)| + |Encode(INTEGER, second.value)|;
    assert |body| == 4 + |first.value| + |second.value|;
    EncodeSize(SEQUENCE, outer.value);
    assert |der| == 1 + |Header(|body|)| + |body|;
    assert |der| == |Encode(SEQUENCE, outer.value)|;
    if !ShortHalves(r, s) {
      assert |outer.value| > |body|;
      HeaderShorter(|body|, |outer.value|);
    }
  }

  /** An encoding is two bytes longer than a short value, more for a long one. */
  lemma EncodeSize(tag: Byte, value: seq<Byte>)
    requires |value| < 0x1_0000_0000
    ensures |value| < 0x80 ==> |Encode(tag, value)| == 2 + |value|
    ensures |value| >= 0x80 ==> |Encode(tag, value)| == 2 + OctetCount(|value|) + |value|
    ensures |value| >= 0x80 ==> |Encode(tag, value)| > 2 + |value|
  {
    OctetsSize(|value|);
  }

  lemma HeaderShorter(n: nat, m: nat)
    requires n < m < 0x1_0000_0000
    ensures |Header(n)| <= |LengthOctets(m)|
  {
    OctetsSize(m);
    if n >= 0x100 {
      assert m / 256 > 0;
      OctetsSize(m / 256);
      assert OctetCount(m) == OctetCount(m / 256) + 1;
    } else if n >= 0x80 {
      assert OctetCount(m) >= 1;
    }
  }

  /** For every even, non-empty raw signature: the DER form reads back as the two
      halves exactly when both integer contents are at most 127 bytes long. */
  lemma RoundTripIff(raw: seq<Byte>)
    requires raw != [] && |raw| % 2 == 0
    ensures var half := |raw| / 2;
            var r, s := raw[..half], raw[half..];
            && RawToDer(raw).Some?
            && (DerToRaw(RawToDer(raw).value, half) == Some((r, s)) <==> ShortHalves(r, s))
  {
    var half := |raw| / 2;
    var r, s := raw[..half], raw[half..];
    if ShortHalves(r, s) {
      ShortRoundTrip(r, s);
    } else if DerToRaw(RawToDer(raw).value, half) == Some((r, s)) {
      LongNeverReads(r, s);
    }
  }

  /** Halves of up to 126 bytes, hence every curve the backend names, always fit. */
  lemma CurvesRoundTrip(raw: seq<Byte>)
    requires 2 <= |raw| <= 252 && |raw| % 2 == 0
    ensures var half := |raw| / 2;
            && RawToDer(raw).Some?
            && DerToRaw(RawToDer(raw).value, half) == Some((raw[..half], raw[half..]))
  {
    StripNonEmpty(raw[..|raw| / 2]);
    StripNonEmpty(raw[|raw| / 2..]);
    RoundTripIff(raw);
  }

  /** 128 significant bytes no longer fit one length byte. */
  lemma LongHalfFails()
    ensures var half := seq(128, i => 0x01);
            var raw := half + half;
            && RawToDer(raw).Some?
            && DerToRaw(RawToDer(raw).value, 128) != Some((half, half))
  {
    var half: seq<Byte> := seq(128, i => 0x01);
    var raw := half + half;
    assert raw[..128] == half && raw[128..] == half;
    assert Content(half) == half;
    RoundTripIff(raw);
  }
}
