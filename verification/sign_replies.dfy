/** What an application gets back from its signing calls (src/module/module.c), said of
    the whole input and of every way of splitting it. */
module SignReplies {
  import opened Der
  import opened Optional
  import opened DigestInfo
  import opened SignOperation

  /** The two ways to complete an operation with its last bytes: C_Sign, or C_SignUpdate
      and C_SignFinal. */
  function BySign(s: State, last: seq<Byte>, digestOf: (Hash, seq<Byte>) -> seq<Byte>): Reply
    requires s.Valid()
  {
    Step(s, Sign(Some(last), Enough), digestOf).1
  }

  function ByFinal(s: State, last: seq<Byte>, digestOf: (Hash, seq<Byte>) -> seq<Byte>): Reply
    requires s.Valid()
  {
    Step(Step(s, Update(Some(last)), digestOf).0, Final(Enough), digestOf).1
  }

  /** A mechanism that hashes sends the digest of everything, under its own hash, however
      long the input is. */
  lemma HashingSubmits(mechanism: SignOperation.Mechanism, calls: seq<Call>, last: seq<Byte>,
                       digestOf: (Hash, seq<Byte>) -> seq<Byte>)
    requires forall c :: c in calls ==> Interim(c)
    requires mechanism.RsaPkcsHash? || mechanism.RsaPssHash? || mechanism.EcdsaHash?
    ensures var s := Run(Setup(mechanism), calls, digestOf);
            var request := Submit(mechanism.hash, digestOf(mechanism.hash, Fed(calls) + last));
            BySign(s, last, digestOf) == request && ByFinal(s, last, digestOf) == request
  {
    SplitIndependence(mechanism, calls, last, digestOf);
  }

  lemma InferredIff(n: nat, h: Hash)
    ensures HashForLength(n) == Some(h) <==> n == HashLength(h)
  {
  }

  /** CKM_ECDSA sends the input as a digest of the one hash that has its length, and
      refuses every other length. */
  lemma EcdsaInfers(calls: seq<Call>, last: seq<Byte>, h: Hash, data: seq<Byte>,
                    digestOf: (Hash, seq<Byte>) -> seq<Byte>)
    requires forall c :: c in calls ==> Interim(c)
    requires |Fed(calls) + last| <= 512
    ensures var s, input := Run(Setup(Ecdsa), calls, digestOf), Fed(calls) + last;
            && ByFinal(s, last, digestOf) == BySign(s, last, digestOf)
            && (BySign(s, last, digestOf) == Submit(h, data)
                <==> data == input && |input| == HashLength(h))
            && (BySign(s, last, digestOf) == Refused(DataLenRange)
                <==> forall g :: HashLength(g) != |input|)
            && (BySign(s, last, digestOf).Submit? || BySign(s, last, digestOf).Refused?)
  {
    var input := Fed(calls) + last;
    SplitIndependence(Ecdsa, calls, last, digestOf);
    InferredIff(|input|, h);
    forall g ensures HashForLength(|input|) == Some(g) <==> |input| == HashLength(g) {
      InferredIff(|input|, g);
    }
    hide HashForLength;
  }

  /** CKM_RSA_PKCS_PSS sends exactly a digest of the hash its parameters name. */
  lemma PssNeedsItsLength(hash: Hash, calls: seq<Call>, last: seq<Byte>, h: Hash, data: seq<Byte>,
                          digestOf: (Hash, seq<Byte>) -> seq<Byte>)
    requires forall c :: c in calls ==> Interim(c)
    requires |Fed(calls) + last| <= 512
    ensures var s, input := Run(Setup(RsaPss(hash)), calls, digestOf), Fed(calls) + last;
            && ByFinal(s, last, digestOf) == BySign(s, last, digestOf)
            && (BySign(s, last, digestOf) == Submit(h, data)
                <==> h == hash && data == input && |input| == HashLength(hash))
            && (BySign(s, last, digestOf) == Refused(DataLenRange) <==> |input| != HashLength(hash))
  {
    SplitIndependence(RsaPss(hash), calls, last, digestOf);
  }

  /** CKM_RSA_PKCS sends the digest inside a DigestInfo, with NULL parameters or none,
      and says of anything else whether it is the old MD5 and SHA1 pair. */
  lemma Pkcs1Unwraps(calls: seq<Call>, last: seq<Byte>, h: Hash, data: seq<Byte>,
                     digestOf: (Hash, seq<Byte>) -> seq<Byte>)
    requires forall c :: c in calls ==> Interim(c)
    requires |Fed(calls) + last| <= 512
    ensures var s, input := Run(Setup(RsaPkcs), calls, digestOf), Fed(calls) + last;
            && ByFinal(s, last, digestOf) == BySign(s, last, digestOf)
            && (BySign(s, last, digestOf) == Submit(h, data)
                <==> && |data| == HashLength(h)
                     && exists explicit: bool :: input == Structure(h, explicit, data))
            && (BySign(s, last, digestOf).Submit?
                || BySign(s, last, digestOf)
                   == Refused(if |input| == 36 then MechanismInvalid else DataInvalid))
  {
    SplitIndependence(RsaPkcs, calls, last, digestOf);
    ParseIff(Fed(calls) + last, h, data);
    assert |data| == HashLength(h) ==>
             ((exists explicit: bool :: Fed(calls) + last == Structure(h, explicit, data))
              <==> Fed(calls) + last == Structure(h, true, data)
                   || Fed(calls) + last == Structure(h, false, data));
  }

  /** A mechanism that does not hash takes 512 bytes and no more: the call that goes over
      is refused for the length, and the operation is over. */
  lemma LimitIs512(mechanism: SignOperation.Mechanism, calls: seq<Call>, last: seq<Byte>,
                   digestOf: (Hash, seq<Byte>) -> seq<Byte>)
    requires forall c :: c in calls ==> Interim(c)
    requires mechanism.RsaPkcs? || mechanism.RsaPss? || mechanism.Ecdsa?
    requires |Fed(calls)| <= 512 < |Fed(calls) + last|
    ensures var s := Run(Setup(mechanism), calls, digestOf);
            && Step(s, Update(Some(last)), digestOf) == (IDLE, Refused(DataLenRange))
            && Step(s, Sign(Some(last), Enough), digestOf) == (IDLE, Refused(DataLenRange))
  {
    RunCollects(mechanism, calls, digestOf);
  }

  /** While the operation lives, asking for the size answers with the size and keeps it,
      a part is taken without a word, a part with no address ends it; and without an
      operation every call says so. */
  lemma CallsAnswered(mechanism: SignOperation.Mechanism, calls: seq<Call>, part: Option<seq<Byte>>, room: Room,
                      digestOf: (Hash, seq<Byte>) -> seq<Byte>)
    requires forall c :: c in calls ==> Interim(c)
    requires mechanism.RsaPkcs? || mechanism.RsaPss? || mechanism.Ecdsa? ==> |Fed(calls)| <= 512
    ensures var s := Run(Setup(mechanism), calls, digestOf);
            && s.active
            && (room != Enough ==> Step(s, Final(room), digestOf) == (s, Length)
                                   && Step(s, Sign(part, room), digestOf) == (s, Length))
            && (part.Some? && |Fed(calls) + part.value| <= 512 ==>
                  Step(s, Update(part), digestOf).1 == Done)
            && (part.None? ==> Step(s, Update(part), digestOf) == (IDLE, Refused(ArgumentsBad))
                               && Step(s, Sign(part, Enough), digestOf) == (IDLE, Refused(ArgumentsBad)))
    ensures Step(IDLE, Update(part), digestOf) == (IDLE, Refused(NotInitialized))
            && Step(IDLE, Final(room), digestOf) == (IDLE, Refused(NotInitialized))
            && Step(IDLE, Sign(part, room), digestOf) == (IDLE, Refused(NotInitialized))
  {
    RunCollects(mechanism, calls, digestOf);
  }

  /** The backend takes a digest for PKCS #1 signing if and only if the key has room for
      the DigestInfo and eleven bytes of padding (section 9.2 of RFC 8017). */
  lemma KeyHasRoom(hash: Hash, keyBits: nat, digest: seq<Byte>)
    requires |digest| == HashLength(hash)
    ensures ParsePkcs1(hash, keyBits).Some?
            <==> keyBits >= 8 * (|Structure(hash, true, digest)| + 11)
    ensures ParsePkcs1(hash, keyBits).Some? ==>
              forall data :: Prepare(ParsePkcs1(hash, keyBits).value, data).Some?
                             <==> |data| == HashLength(hash)
  {
    PrefixIsStructure(hash, digest);
  }
}
