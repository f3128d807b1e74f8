/** The two directions of the DER tag-length-value codec (src/module/der.c).

    Bytes are the integers 0..255, so the source's shifts and masks appear as
    multiplication, division and remainder by powers of two. */
module Der {
  import opened Optional

  type Byte = x: int | 0 <= x < 256

  /** What the reader reports: the value is the slice the source points into,
      `consumed` the length of the whole encoding. */
  datatype Tlv = Tlv(tag: Byte, value: seq<Byte>, consumed: nat)

  const SEQUENCE: Byte := 0x30
  const OID: Byte := 0x06
  const NULL: Byte := 0x05
  const OCTET_STRING: Byte := 0x04
  const INTEGER: Byte := 0x02

  /** High-tag-number form starts with all five low bits set. */
  predicate LowTag(tag: Byte) { tag % 32 != 31 }

  /** The number whose base-256 digits, most significant first, are `s`. */
  function BigEndian(s: seq<Byte>): nat {
    if s == [] then 0 else BigEndian(s[..|s| - 1]) * 256 + s[|s| - 1]
  }

  /** The fewest bytes that hold `n`. */
  function OctetCount(n: nat): nat {
    if n == 0 then 0 else OctetCount(n / 256) + 1
  }

  /** `n` written in `OctetCount(n)` bytes. */
  function Octets(n: nat): (s: seq<Byte>) {
    if n == 0 then [] else Octets(n / 256) + [n % 256]
  }

  /** Definite length octets in their shortest form. */
  function LengthOctets(n: nat): seq<Byte>
    requires n < 0x1_0000_0000
  {
    if n < 0x80 then [n]
    else OctetsSize(n); [0x80 + OctetCount(n)] + Octets(n)
  }

  function Encode(tag: Byte, value: seq<Byte>): seq<Byte>
    requires |value| < 0x1_0000_0000
  {
    [tag] + LengthOctets(|value|) + value
  }

  function Read(data: seq<Byte>): Option<Tlv> {
    if |data| < 2 || !LowTag(data[0]) then None
    else if data[1] < 0x80 then Body(data, 2, data[1])
    else
      var count := data[1] - 0x80;
      if count == 0 || count > 4 || |data| < 2 + count || data[2] == 0 then None
      else
        var length := BigEndian(data[2..2 + count]);
        if length < 0x80 then None else Body(data, 2 + count, length)
  }

  function Body(data: seq<Byte>, offset: nat, length: nat): Option<Tlv>
    requires 1 <= offset <= |data|
  {
    if length > |data| - offset then None
    else Some(Tlv(data[0], data[offset..offset + length], offset + length))
  }

  function ReadTag(data: seq<Byte>, tag: Byte): Option<Tlv> {
    match Read(data)
    case Some(t) => if t.tag == tag then Some(t) else None
    case None => None
  }

  // ----- The imperative reader and writer -----

  method DerRead(data: seq<Byte>) returns (out: Option<Tlv>)
    ensures out == Read(data)
  {
    if |data| < 2 || data[0] % 32 == 31 {
      return None;
    }
    var offset, length := 2, 0;
    if data[1] < 0x80 {
      length := data[1];
    } else {
      var count := data[1] % 0x80;
      if count == 0 || count > 4 || |data| < 2 + count || data[2] == 0 {
        return None;
      }
      for i := 0 to count
        invariant length == BigEndian(data[2..2 + i])
      {
        assert data[2..2 + i + 1] == data[2..2 + i] + [data[2 + i]];
        length := length * 256 + data[2 + i];
      }
      if length < 0x80 {
        return None;
      }
      offset := 2 + count;
    }
    if length > |data| - offset {
      return None;
    }
    return Some(Tlv(data[0], data[offset..offset + length], offset + length));
  }

  /** Fills the header the way the source does: count the bytes of the size,
      then write them from the most significant down. */
  method DerEncode(tag: Byte, value: seq<Byte>) returns (out: seq<Byte>)
    requires |value| < 0x1_0000_0000
    ensures out == Encode(tag, value)
  {
    out := [tag];
    var size := |value|;
    if size < 0x80 {
      out := out + [size];
    } else {
      var count, remaining: nat := 0, size;
      while remaining != 0
        invariant count + OctetCount(remaining) == OctetCount(size)
      {
        count := count + 1;
        remaining := remaining / 256;
      }
      OctetsSize(size);
      var header := new Byte[5];
      header[0] := 0x80 + count;
      for i := 0 to count
        invariant header[0] == 0x80 + count
        invariant forall j :: 0 <= j < i ==> header[1 + j] == Octets(size)[j]
      {
        OctetAt(size, i);
        header[1 + i] := ShiftRight(size, count - 1 - i) % 256;
      }
      assert header[..count + 1] == LengthOctets(size);
      out := out + header[..count + 1];
    }
    if size > 0 {
      out := out + value;
    }
  }

  // ----- Arithmetic of base-256 digits -----

  function Pow256(k: nat): (p: nat)
    ensures p > 0
  {
    if k == 0 then 1 else 256 * Pow256(k - 1)
  }

  lemma {:induction false} OctetsSize(n: nat)
    ensures |Octets(n)| == OctetCount(n)
    ensures n < 0x1_0000_0000 ==> OctetCount(n) <= 4
    ensures n > 0 ==> OctetCount(n) > 0 && Octets(n)[0] != 0
  {
    if n > 0 {
      OctetsSize(n / 256);
      if n < 0x1_0000_0000 { OctetCountBound(n, 4); }
    }
  }

  lemma {:induction false} OctetCountBound(n: nat, k: nat)
    requires n < Pow256(k)
    ensures OctetCount(n) <= k
  {
    if n > 0 {
      OctetCountBound(n / 256, k - 1);
    }
  }

  /** `n >> (8 * k)`. */
  function ShiftRight(n: nat, k: nat): nat {
    if k == 0 then n else ShiftRight(n / 256, k - 1)
  }

  /** Shifting a digit down to the low byte exposes it. */
  lemma {:induction false} OctetAt(n: nat, i: nat)
    requires i < OctetCount(n)
    ensures i < |Octets(n)| && Octets(n)[i] == ShiftRight(n, OctetCount(n) - 1 - i) % 256
  {
    OctetsSize(n);
    OctetsSize(n / 256);
    if i < OctetCount(n) - 1 {
      OctetAt(n / 256, i);
    }
  }

  lemma {:induction false} BigEndianOctets(n: nat)
    ensures BigEndian(Octets(n)) == n
  {
    if n > 0 {
      BigEndianOctets(n / 256);
      assert Octets(n)[..|Octets(n)| - 1] == Octets(n / 256);
    }
  }

  /** Without a leading zero the digits are determined by the number. */
  lemma {:induction false} OctetsBigEndian(s: seq<Byte>)
    requires s == [] || s[0] != 0
    ensures Octets(BigEndian(s)) == s
    ensures s != [] ==> BigEndian(s) > 0
  {
    if s != [] {
      var t := s[..|s| - 1];
      OctetsBigEndian(t);
      assert BigEndian(s) / 256 == BigEndian(t) && BigEndian(s) % 256 == s[|s| - 1];
      assert s == t + [s[|s| - 1]];
    }
  }

  lemma {:induction false} BigEndianBound(s: seq<Byte>)
    ensures BigEndian(s) < Pow256(|s|)
  {
    if s != [] {
      BigEndianBound(s[..|s| - 1]);
    }
  }

  // ----- Main results: the two directions are mutual inverses -----

  /** Reading an encoding returns exactly what was encoded, whatever follows it. */
  lemma ReadEncode(tag: Byte, value: seq<Byte>, rest: seq<Byte>)
    requires LowTag(tag) && |value| < 0x1_0000_0000
    ensures Read(Encode(tag, value) + rest) == Some(Tlv(tag, value, |Encode(tag, value)|))
  {
    var n := |value|;
    var data := Encode(tag, value) + rest;
    OctetsSize(n);
    var head := 1 + |LengthOctets(n)|;
    assert data[head..head + n] == value;
    if n >= 0x80 {
      assert data[1] == LengthOctets(n)[0];
      assert data[2..2 + OctetCount(n)] == Octets(n);
      BigEndianOctets(n);
    } else {
      assert data[1] == n;
    }
  }

  /** Whatever the reader accepts is the one encoding of what it returns. */
  lemma EncodeRead(data: seq<Byte>)
    requires Read(data).Some?
    ensures var t := Read(data).value;
            && LowTag(t.tag) && |t.value| < 0x1_0000_0000 && t.consumed <= |data|
            && Encode(t.tag, t.value) == data[..t.consumed]
  {
    var t := Read(data).value;
    if data[1] >= 0x80 {
      var digits := data[2..2 + data[1] - 0x80];
      BigEndianBound(digits);
      OctetsBigEndian(digits);
      OctetsSize(|t.value|);
      PowTable();
      PowMonotone(|digits|, 4);
      assert LengthOctets(|t.value|) == [data[1]] + digits;
    }
  }

  lemma PowTable()
    ensures Pow256(4) == 0x1_0000_0000
  {
    assert Pow256(1) == 256 && Pow256(2) == 0x1_0000 && Pow256(3) == 0x100_0000;
  }

  lemma {:induction false} PowMonotone(a: nat, b: nat)
    requires a <= b
    ensures Pow256(a) <= Pow256(b)
  {
    if a < b { PowMonotone(a, b - 1); }
  }

  /** Encodings are self-delimiting: no encoding is a proper prefix of another. */
  lemma EncodePrefixFree(tag: Byte, value: seq<Byte>, rest: seq<Byte>,
                         tag': Byte, value': seq<Byte>, rest': seq<Byte>)
    requires LowTag(tag) && |value| < 0x1_0000_0000
    requires LowTag(tag') && |value'| < 0x1_0000_0000
    requires Encode(tag, value) + rest == Encode(tag', value') + rest'
    ensures tag == tag' && value == value' && rest == rest'
  {
    ReadEncode(tag, value, rest);
    ReadEncode(tag', value', rest');
    var all := Encode(tag, value) + rest;
    assert rest == all[|Encode(tag, value)|..] && rest' == all[|Encode(tag', value')|..];
  }
}
