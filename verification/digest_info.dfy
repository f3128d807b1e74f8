/** DigestInfo on both sides of the portal: the PKCS#11 module takes it apart
    (src/module/mechanism.c), the backend puts it together again from a prefix
    table (src/broker/mechanism.c), section 9.2 of RFC 8017. */
module DigestInfo {
  import opened Der
  import opened Optional

  datatype Hash = SHA1 | SHA224 | SHA256 | SHA384 | SHA512

  const HASHES: seq<Hash> := [SHA1, SHA224, SHA256, SHA384, SHA512]

  function HashLength(hash: Hash): nat {
    match hash
    case SHA1 => 20
    case SHA224 => 28
    case SHA256 => 32
    case SHA384 => 48
    case SHA512 => 64
  }

  function ObjectIdentifier(hash: Hash): seq<Byte> {
    match hash
    case SHA1 => [0x2b, 0x0e, 0x03, 0x02, 0x1a]
    case SHA224 => [0x60, 0x86, 0x48, 0x01, 0x65, 0x03, 0x04, 0x02, 0x04]
    case SHA256 => [0x60, 0x86, 0x48, 0x01, 0x65, 0x03, 0x04, 0x02, 0x01]
    case SHA384 => [0x60, 0x86, 0x48, 0x01, 0x65, 0x03, 0x04, 0x02, 0x02]
    case SHA512 => [0x60, 0x86, 0x48, 0x01, 0x65, 0x03, 0x04, 0x02, 0x03]
  }

  /** The backend's constant bytes in front of a digest. */
  function Prefix(hash: Hash): seq<Byte> {
    match hash
    case SHA1 => [0x30, 0x21, 0x30, 0x09, 0x06, 0x05, 0x2b, 0x0e,
                  0x03, 0x02, 0x1a, 0x05, 0x00, 0x04, 0x14]
    case SHA224 => [0x30, 0x2d, 0x30, 0x0d, 0x06, 0x09, 0x60, 0x86, 0x48, 0x01,
                    0x65, 0x03, 0x04, 0x02, 0x04, 0x05, 0x00, 0x04, 0x1c]
    case SHA256 => [0x30, 0x31, 0x30, 0x0d, 0x06, 0x09, 0x60, 0x86, 0x48, 0x01,
                    0x65, 0x03, 0x04, 0x02, 0x01, 0x05, 0x00, 0x04, 0x20]
    case SHA384 => [0x30, 0x41, 0x30, 0x0d, 0x06, 0x09, 0x60, 0x86, 0x48, 0x01,
                    0x65, 0x03, 0x04, 0x02, 0x02, 0x05, 0x00, 0x04, 0x30]
    case SHA512 => [0x30, 0x51, 0x30, 0x0d, 0x06, 0x09, 0x60, 0x86, 0x48, 0x01,
                    0x65, 0x03, 0x04, 0x02, 0x03, 0x05, 0x00, 0x04, 0x40]
  }

  /** The parameters of the algorithm identifier are an explicit NULL or absent. */
  function Parameters(explicit: bool): seq<Byte> {
    if explicit then Encode(NULL, []) else []
  }

  function Algorithm(hash: Hash, explicit: bool): seq<Byte> {
    Encode(SEQUENCE, Encode(OID, ObjectIdentifier(hash)) + Parameters(explicit))
  }

  /** The structure of the standard, written with the encoder. */
  function Structure(hash: Hash, explicit: bool, digest: seq<Byte>): (s: seq<Byte>)
    requires |digest| == HashLength(hash)
  {
    Encode(SEQUENCE, Algorithm(hash, explicit) + Encode(OCTET_STRING, digest))
  }

  datatype Parsed = Parsed(hash: Hash, digest: seq<Byte>)

  function FindHash(oid: seq<Byte>): Option<Hash> {
    if oid == ObjectIdentifier(SHA1) then Some(SHA1)
    else if oid == ObjectIdentifier(SHA224) then Some(SHA224)
    else if oid == ObjectIdentifier(SHA256) then Some(SHA256)
    else if oid == ObjectIdentifier(SHA384) then Some(SHA384)
    else if oid == ObjectIdentifier(SHA512) then Some(SHA512)
    else None
  }

  function ParseAlgorithm(algorithm: seq<Byte>): Option<Hash> {
    match ReadTag(algorithm, OID)
    case None => None
    case Some(oid) =>
      if oid.consumed == |algorithm| then FindHash(oid.value)
      else
        TagBounds(algorithm, OID);
        match ReadTag(algorithm[oid.consumed..], NULL)
        case None => None
        case Some(parameters) =>
          if parameters.value != [] || oid.consumed + parameters.consumed != |algorithm| then None
          else FindHash(oid.value)
  }

  function Parse(data: seq<Byte>): Option<Parsed> {
    match ReadTag(data, SEQUENCE)
    case None => None
    case Some(outer) =>
      if outer.consumed != |data| then None
      else
        match ReadTag(outer.value, SEQUENCE)
        case None => None
        case Some(algorithm) =>
          TagBounds(outer.value, SEQUENCE);
          match ParseAlgorithm(algorithm.value)
          case None => None
          case Some(hash) =>
            match ReadTag(outer.value[algorithm.consumed..], OCTET_STRING)
            case None => None
            case Some(value) =>
              if algorithm.consumed + value.consumed != |outer.value| then None
              else if |value.value| != HashLength(hash) then None
              else Some(Parsed(hash, value.value))
  }

  lemma TagBounds(data: seq<Byte>, tag: Byte)
    requires ReadTag(data, tag).Some?
    ensures var t := ReadTag(data, tag).value;
            && t.consumed <= |data| && |t.value| < 0x1_0000_0000
            && data[..t.consumed] == Encode(tag, t.value)
  {
    EncodeRead(data);
  }

  /** The search through the hash table. */
  method FindEntry(oid: seq<Byte>) returns (entry: Option<Hash>)
    ensures entry == FindHash(oid)
  {
    for i := 0 to |HASHES|
      invariant forall j :: 0 <= j < i ==> ObjectIdentifier(HASHES[j]) != oid
    {
      if ObjectIdentifier(HASHES[i]) == oid {
        return Some(HASHES[i]);
      }
    }
    assert HASHES[0] == SHA1 && HASHES[1] == SHA224 && HASHES[2] == SHA256
        && HASHES[3] == SHA384 && HASHES[4] == SHA512;
    return None;
  }

  method ReadAlgorithm(algorithm: seq<Byte>) returns (entry: Option<Hash>)
    ensures entry == ParseAlgorithm(algorithm)
  {
    var oid := DerRead(algorithm);
    if oid.None? || oid.value.tag != OID {
      return None;
    }
    TagBounds(algorithm, OID);
    if oid.value.consumed != |algorithm| {
      var parameters := DerRead(algorithm[oid.value.consumed..]);
      if parameters.None? || parameters.value.tag != NULL
        || |parameters.value.value| != 0
        || oid.value.consumed + parameters.value.consumed != |algorithm| {
        return None;
      }
    }
    entry := FindEntry(oid.value.value);
  }

  /** The parser as the source runs it. */
  method DigestInfoParse(data: seq<Byte>) returns (r: Option<Parsed>)
    ensures r == Parse(data)
  {
    if |data| == 0 {
      return None;
    }
    var outer := DerRead(data);
    if outer.None? || outer.value.tag != SEQUENCE || outer.value.consumed != |data| {
      return None;
    }
    var body := outer.value.value;
    var algorithm := DerRead(body);
    if algorithm.None? || algorithm.value.tag != SEQUENCE {
      return None;
    }
    TagBounds(body, SEQUENCE);
    var entry := ReadAlgorithm(algorithm.value.value);
    if entry.None? {
      return None;
    }
    var value := DerRead(body[algorithm.value.consumed..]);
    if value.None? || value.value.tag != OCTET_STRING
      || algorithm.value.consumed + value.value.consumed != |body|
      || |value.value.value| != HashLength(entry.value) {
      return None;
    }
    return Some(Parsed(entry.value, value.value.value));
  }

  // ----- Main result: the parser accepts the two forms of the standard and nothing else -----

  /** Reading through an encoding that is followed by something. */
  lemma ReadTagEncode(tag: Byte, value: seq<Byte>, rest: seq<Byte>)
    requires LowTag(tag) && |value| < 0x1_0000_0000
    ensures ReadTag(Encode(tag, value) + rest, tag)
         == Some(Tlv(tag, value, |Encode(tag, value)|))
    ensures (Encode(tag, value) + rest)[|Encode(tag, value)|..] == rest
  {
    ReadEncode(tag, value, rest);
  }

  lemma ParseAlgorithmEncoded(hash: Hash, explicit: bool)
    ensures ParseAlgorithm(Encode(OID, ObjectIdentifier(hash)) + Parameters(explicit)) == Some(hash)
  {
    ReadTagEncode(OID, ObjectIdentifier(hash), Parameters(explicit));
    ReadTagEncode(NULL, [], []);
    assert Encode(NULL, []) + [] == Encode(NULL, []);
    assert FindHash(ObjectIdentifier(hash)) == Some(hash) by {
      assert ObjectIdentifier(SHA224)[8] == 4 && ObjectIdentifier(SHA256)[8] == 1
          && ObjectIdentifier(SHA384)[8] == 2 && ObjectIdentifier(SHA512)[8] == 3;
      assert |ObjectIdentifier(SHA1)| == 5;
    }
  }

  lemma ParseStructure(hash: Hash, explicit: bool, digest: seq<Byte>)
    requires |digest| == HashLength(hash)
    ensures Parse(Structure(hash, explicit, digest)) == Some(Parsed(hash, digest))
  {
    var identifier := Encode(OID, ObjectIdentifier(hash)) + Parameters(explicit);
    var octets := Encode(OCTET_STRING, digest);
    var body := Encode(SEQUENCE, identifier) + octets;
    ReadTagEncode(SEQUENCE, body, []);
    assert Encode(SEQUENCE, body) + [] == Encode(SEQUENCE, body);
    ReadTagEncode(SEQUENCE, identifier, octets);
    ParseAlgorithmEncoded(hash, explicit);
    ReadTagEncode(OCTET_STRING, digest, []);
    assert octets + [] == octets;
  }

  lemma ParsedAlgorithm(algorithm: seq<Byte>)
    requires ParseAlgorithm(algorithm).Some?
    ensures exists explicit: bool ::
              algorithm == Encode(OID, ObjectIdentifier(ParseAlgorithm(algorithm).value))
                         + Parameters(explicit)
  {
    var oid := ReadTag(algorithm, OID).value;
    TagBounds(algorithm, OID);
    var head := Encode(OID, ObjectIdentifier(ParseAlgorithm(algorithm).value));
    if oid.consumed == |algorithm| {
      assert algorithm == head + Parameters(false);
    } else {
      var rest := algorithm[oid.consumed..];
      TagBounds(rest, NULL);
      assert rest == rest[..|rest|];
      assert algorithm == head + Parameters(true);
    }
  }

  lemma IdentifierSize(hash: Hash)
    ensures |ObjectIdentifier(hash)| <= 9
  {
  }

  lemma ParsedStructure(data: seq<Byte>)
    requires Parse(data).Some?
    ensures var p := Parse(data).value;
            && |p.digest| == HashLength(p.hash)
            && exists explicit: bool :: data == Structure(p.hash, explicit, p.digest)
  {
    hide ObjectIdentifier, HashLength, FindHash, ParseAlgorithm, Parameters, Encode, ReadTag;
    var p := Parse(data).value;
    TagBounds(data, SEQUENCE);
    var body := ReadTag(data, SEQUENCE).value.value;
    TagBounds(body, SEQUENCE);
    var algorithm := ReadTag(body, SEQUENCE).value;
    ParsedAlgorithm(algorithm.value);
    IdentifierSize(p.hash);
    var explicit: bool :| algorithm.value
                        == Encode(OID, ObjectIdentifier(p.hash)) + Parameters(explicit);
    var rest := body[algorithm.consumed..];
    TagBounds(rest, OCTET_STRING);
    assert rest[..|rest|] == rest && data[..|data|] == data;
    assert body == body[..algorithm.consumed] + rest;
    assert data == Structure(p.hash, explicit, p.digest);
  }

  /** For every byte string: the parser answers (hash, digest) exactly when the
      string is the structure for that hash and digest, with or without NULL. */
  lemma ParseIff(data: seq<Byte>, hash: Hash, digest: seq<Byte>)
    ensures Parse(data) == Some(Parsed(hash, digest))
       <==> && |digest| == HashLength(hash)
            && (data == Structure(hash, true, digest) || data == Structure(hash, false, digest))
  {
    if Parse(data) == Some(Parsed(hash, digest)) {
      ParsedStructure(data);
    }
    if |digest| == HashLength(hash) {
      ParseStructure(hash, true, digest);
      ParseStructure(hash, false, digest);
    }
  }

  lemma ShortEncode(tag: Byte, value: seq<Byte>)
    requires |value| < 0x80
    ensures Encode(tag, value) == [tag, |value|] + value
  {
  }

  function PrefixFor(oid: seq<Byte>, length: Byte): seq<Byte>
    requires |oid| <= 9 && length <= 64
  {
    [0x30, |oid| + length + 8, 0x30, |oid| + 4, 0x06, |oid|] + oid + [0x05, 0x00, 0x04, length]
  }

  lemma PrefixParts(hash: Hash)
    ensures |ObjectIdentifier(hash)| <= 9
    ensures Prefix(hash) == PrefixFor(ObjectIdentifier(hash), HashLength(hash))
  {
    match hash
    case SHA1 => assert Prefix(SHA1) == PrefixFor(ObjectIdentifier(SHA1), 20);
    case SHA224 => assert Prefix(SHA224) == PrefixFor(ObjectIdentifier(SHA224), 28);
    case _ => LongPrefixParts(hash);
  }

  lemma LongPrefixParts(hash: Hash)
    requires hash == SHA256 || hash == SHA384 || hash == SHA512
    ensures |ObjectIdentifier(hash)| <= 9
    ensures Prefix(hash) == PrefixFor(ObjectIdentifier(hash), HashLength(hash))
  {
    match hash
    case SHA256 => assert Prefix(SHA256) == PrefixFor(ObjectIdentifier(SHA256), 32);
    case SHA384 => assert Prefix(SHA384) == PrefixFor(ObjectIdentifier(SHA384), 48);
    case SHA512 => assert Prefix(SHA512) == PrefixFor(ObjectIdentifier(SHA512), 64);
    case _ => assert false;
  }

  /** The backend's literal prefixes are the standard's structure with NULL. */
  lemma PrefixIsStructure(hash: Hash, digest: seq<Byte>)
    requires |digest| == HashLength(hash)
    ensures Prefix(hash) + digest == Structure(hash, true, digest)
  {
    PrefixParts(hash);
    PrefixAssembled(ObjectIdentifier(hash), digest);
  }

  lemma PrefixAssembled(oid: seq<Byte>, digest: seq<Byte>)
    requires |oid| <= 9 && |digest| <= 64
    ensures Encode(SEQUENCE,
                   Encode(SEQUENCE, Encode(OID, oid) + Encode(NULL, [])) + Encode(OCTET_STRING, digest))
         == PrefixFor(oid, |digest|) + digest
  {
    ShortEncode(OID, oid);
    ShortEncode(NULL, []);
    var identifier := Encode(OID, oid) + Encode(NULL, []);
    ShortEncode(SEQUENCE, identifier);
    ShortEncode(OCTET_STRING, digest);
    ShortEncode(SEQUENCE, Encode(SEQUENCE, identifier) + Encode(OCTET_STRING, digest));
  }

  // ----- The backend side -----

  datatype Mechanism = Mechanism(expectedInput: nat, digestInfo: Option<seq<Byte>>)

  /** RSA_PKCS1_V1_5 for an RSA key of `keyBits` bits; None is the key-too-small error. */
  function ParsePkcs1(hash: Hash, keyBits: nat): Option<Mechanism> {
    if keyBits / 8 < |Prefix(hash)| + HashLength(hash) + 11 then None
    else Some(Mechanism(HashLength(hash), Some(Prefix(hash))))
  }

  function Prepare(mechanism: Mechanism, data: seq<Byte>): Option<seq<Byte>> {
    if mechanism.expectedInput != 0 && |data| != mechanism.expectedInput then None
    else
      match mechanism.digestInfo
      case None => Some(data)
      case Some(prefix) => Some(prefix + data)
  }

  /** Taken apart by the module and put together by the backend, an accepted
      DigestInfo comes back with explicit NULL parameters: unchanged when it had
      them, normalised when it had none. */
  lemma BackendRestores(data: seq<Byte>, keyBits: nat)
    requires Parse(data).Some?
    requires ParsePkcs1(Parse(data).value.hash, keyBits).Some?
    ensures var p := Parse(data).value;
            && |p.digest| == HashLength(p.hash)
            && Prepare(ParsePkcs1(p.hash, keyBits).value, p.digest)
            == Some(Structure(p.hash, true, p.digest))
            && (data == Structure(p.hash, true, p.digest)
                || data == Structure(p.hash, false, p.digest))
  {
    var p := Parse(data).value;
    ParseIff(data, p.hash, p.digest);
    PrefixIsStructure(p.hash, p.digest);
  }

  lemma StructureSize(hash: Hash, explicit: bool, digest: seq<Byte>)
    requires |digest| == HashLength(hash)
    ensures |Structure(hash, explicit, digest)| <= 83
  {
    if explicit {
      PrefixIsStructure(hash, digest);
    } else {
      var oid := ObjectIdentifier(hash);
      var identifier := Encode(OID, oid) + Parameters(false);
      assert |identifier| == |oid| + 2;
      assert |Encode(SEQUENCE, identifier)| == |identifier| + 2;
      assert |Encode(OCTET_STRING, digest)| == |digest| + 2;
    }
  }
}
