/** One session's multi-part signature (src/module/module.c, the Sign entry
    points): how input is collected over C_Sign, C_SignUpdate and C_SignFinal,
    and what is handed to the portal in the end. */
module SignOperation {
  import opened Der
  import opened Optional
  import opened DigestInfo

  /** Non-hashing mechanisms accept only bounded input. */
  const PRE_HASHED_LIMIT := 512

  /** MD5 followed by SHA1, which the portal has no name for. */
  const TLS10_MD5_SHA1_LENGTH := 36

  datatype Mechanism =
    | RsaPkcs
    | RsaPkcsHash(hash: Hash)
    | RsaPss(hash: Hash)       // the hash named by the parameters
    | RsaPssHash(hash: Hash)
    | Ecdsa
    | EcdsaHash(hash: Hash)
  {
    predicate HashLocally() { RsaPkcsHash? || RsaPssHash? || EcdsaHash? }
  }

  datatype Code = DataLenRange | DataInvalid | MechanismInvalid | ArgumentsBad | NotInitialized

  datatype Reply =
    | Done                                    // CKR_OK, nothing returned
    | Length                                  // a size query or a too small buffer
    | Submit(hash: Hash, data: seq<Byte>)     // the request sent to the portal
    | Refused(code: Code)

  /** How the caller passes the output buffer. */
  datatype Room = Query | TooSmall | Enough

  datatype Call =
    | Update(part: Option<seq<Byte>>)         // None: a NULL pointer with a size
    | Final(room: Room)
    | Sign(part: Option<seq<Byte>>, room: Room)

  /** `digest` stands for the running hash: the bytes it has been fed. */
  datatype State = State(active: bool, mechanism: Mechanism,
                         digest: Option<seq<Byte>>, buffer: Option<seq<Byte>>)
  {
    /** An active operation has exactly one of digest and buffer. */
    predicate Valid() {
      && (active ==> (digest.Some? <==> mechanism.HashLocally()) && (digest.Some? <==> buffer.None?))
      && (!active ==> digest.None? && buffer.None?)
      && (buffer.Some? ==> |buffer.value| <= PRE_HASHED_LIMIT)
    }

    function Input(): seq<Byte>
      requires Valid() && active
    {
      if digest.Some? then digest.value else buffer.value
    }
  }

  const IDLE := State(false, RsaPkcs, None, None)

  function Setup(mechanism: Mechanism): State {
    if mechanism.HashLocally() then State(true, mechanism, Some([]), None)
    else State(true, mechanism, None, Some([]))
  }

  function HashForLength(n: nat): Option<Hash> {
    if n == 20 then Some(SHA1) else if n == 28 then Some(SHA224) else if n == 32 then Some(SHA256)
    else if n == 48 then Some(SHA384) else if n == 64 then Some(SHA512) else None
  }

  /** What an operation that collected `input` sends, as a function of the whole input. */
  function Payload(mechanism: Mechanism, input: seq<Byte>,
                   digestOf: (Hash, seq<Byte>) -> seq<Byte>): Reply {
    match mechanism
    case RsaPkcsHash(h) => Submit(h, digestOf(h, input))
    case RsaPssHash(h) => Submit(h, digestOf(h, input))
    case EcdsaHash(h) => Submit(h, digestOf(h, input))
    case RsaPkcs =>
      (match Parse(input)
       case Some(p) => Submit(p.hash, p.digest)
       case None => Refused(if |input| == TLS10_MD5_SHA1_LENGTH then MechanismInvalid else DataInvalid))
    case Ecdsa =>
      (match HashForLength(|input|)
       case Some(h) => Submit(h, input)
       case None => Refused(DataLenRange))
    case RsaPss(h) =>
      if |input| != HashLength(h) then Refused(DataLenRange) else Submit(h, input)
  }

  function Feed(s: State, part: Option<seq<Byte>>): (State, Option<Code>)
    requires s.Valid() && s.active
  {
    match part
    case None => (s, Some(ArgumentsBad))
    case Some(bytes) =>
      if bytes == [] then (s, None)
      else if s.digest.Some? then (s.(digest := Some(s.digest.value + bytes)), None)
      else if |s.buffer.value| + |bytes| > PRE_HASHED_LIMIT then (s, Some(DataLenRange))
      else (s.(buffer := Some(s.buffer.value + bytes)), None)
  }

  function Finish(s: State, room: Room, digestOf: (Hash, seq<Byte>) -> seq<Byte>): (State, Reply)
    requires s.Valid() && s.active
  {
    if room != Enough then (s, Length) else (IDLE, Payload(s.mechanism, s.Input(), digestOf))
  }

  function Step(s: State, call: Call, digestOf: (Hash, seq<Byte>) -> seq<Byte>): (r: (State, Reply))
    requires s.Valid()
    ensures r.0.Valid()
  {
    if !s.active then (s, Refused(NotInitialized))
    else
      match call
      case Update(part) =>
        var (fed, error) := Feed(s, part);
        if error.Some? then (IDLE, Refused(error.value)) else (fed, Done)
      case Final(room) => Finish(s, room, digestOf)
      case Sign(part, room) =>
        if room != Enough then (s, Length)
        else
          var (fed, error) := Feed(s, part);
          if error.Some? then (IDLE, Refused(error.value)) else Finish(fed, room, digestOf)
  }

  // ----- The session's operation, updated in place -----

  class Operation {
    var active: bool
    var mechanism: Mechanism
    var digest: Option<seq<Byte>>
    var buffer: Option<seq<Byte>>
    const digestOf: (Hash, seq<Byte>) -> seq<Byte>

    ghost function View(): State reads this {
      State(active, mechanism, digest, buffer)
    }

    ghost predicate Valid() reads this { View().Valid() }

    constructor (digestOf: (Hash, seq<Byte>) -> seq<Byte>)
      ensures Valid() && View() == IDLE && this.digestOf == digestOf
    {
      active, mechanism, digest, buffer := false, RsaPkcs, None, None;
      this.digestOf := digestOf;
    }

    /** Every way out of an operation drops its digest and its buffer. */
    method Reset()
      modifies this
      ensures View() == IDLE
    {
      active, mechanism := false, RsaPkcs;
      digest, buffer := None, None;
    }

    method Init(wanted: Mechanism)
      requires Valid() && !active
      modifies this
      ensures Valid() && View() == Setup(wanted)
    {
      if wanted.HashLocally() {
        digest := Some([]);
      } else {
        buffer := Some([]);
      }
      mechanism := wanted;
      active := true;
    }

    method FeedBytes(part: Option<seq<Byte>>) returns (error: Option<Code>)
      requires Valid() && active
      modifies this`digest, this`buffer
      ensures Valid() && (View(), error) == Feed(old(View()), part)
    {
      if part == Some([]) {
        return None;
      }
      if part.None? {
        return Some(ArgumentsBad);
      }
      if digest.Some? {
        digest := Some(digest.value + part.value);
        return None;
      }
      // Subtract rather than add, as the source does to avoid overflow.
      if |buffer.value| > PRE_HASHED_LIMIT || |part.value| > PRE_HASHED_LIMIT - |buffer.value| {
        return Some(DataLenRange);
      }
      buffer := Some(buffer.value + part.value);
      return None;
    }

    method Perform() returns (reply: Reply)
      requires Valid() && active
      modifies this`digest
      ensures reply == Payload(mechanism, old(View().Input()), digestOf)
    {
      if mechanism.HashLocally() {
        var hash := mechanism.hash;
        reply := Submit(hash, digestOf(hash, digest.value));
        digest := None;
      } else if mechanism.RsaPkcs? {
        var parsed := DigestInfoParse(buffer.value);
        if parsed.None? {
          return Refused(if |buffer.value| == TLS10_MD5_SHA1_LENGTH then MechanismInvalid
                         else DataInvalid);
        }
        reply := Submit(parsed.value.hash, parsed.value.digest);
      } else if mechanism.Ecdsa? {
        var inferred := HashForLength(|buffer.value|);
        if inferred.None? {
          return Refused(DataLenRange);
        }
        reply := Submit(inferred.value, buffer.value);
      } else {
        if |buffer.value| != HashLength(mechanism.hash) {
          return Refused(DataLenRange);
        }
        reply := Submit(mechanism.hash, buffer.value);
      }
    }

    method Update(part: Option<seq<Byte>>) returns (reply: Reply)
      requires Valid()
      modifies this
      ensures Valid() && (View(), reply) == Step(old(View()), Call.Update(part), digestOf)
    {
      if !active {
        return Refused(NotInitialized);
      }
      var error := FeedBytes(part);
      if error.Some? {
        Reset();
        return Refused(error.value);
      }
      return Done;
    }

    method SignFinal(room: Room) returns (reply: Reply)
      requires Valid()
      modifies this
      ensures Valid() && (View(), reply) == Step(old(View()), Final(room), digestOf)
    {
      if !active {
        return Refused(NotInitialized);
      }
      if room != Enough {
        return Length;
      }
      reply := Perform();
      Reset();
    }

    method SignAll(part: Option<seq<Byte>>, room: Room) returns (reply: Reply)
      requires Valid()
      modifies this
      ensures Valid() && (View(), reply) == Step(old(View()), Sign(part, room), digestOf)
    {
      if !active {
        return Refused(NotInitialized);
      }
      // Size queries preserve the input and the operation.
      if room != Enough {
        return Length;
      }
      var error := FeedBytes(part);
      if error.Some? {
        Reset();
        return Refused(error.value);
      }
      reply := SignFinal(room);
    }
  }

  // ----- Main results: only the concatenation of the parts matters -----

  /** The calls a caller may make before the last one: updates and size queries. */
  predicate Interim(call: Call) {
    || (call.Update? && call.part.Some?)
    || (call.Final? && call.room != Enough)
    || (call.Sign? && call.room != Enough)
  }

  function Fed(calls: seq<Call>): seq<Byte> {
    if calls == [] then []
    else
      var last := calls[|calls| - 1];
      Fed(calls[..|calls| - 1]) + if last.Update? && last.part.Some? then last.part.value else []
  }

  function Run(s: State, calls: seq<Call>, digestOf: (Hash, seq<Byte>) -> seq<Byte>): (r: State)
    requires s.Valid()
    ensures r.Valid()
  {
    if calls == [] then s else Step(Run(s, calls[..|calls| - 1], digestOf), calls[|calls| - 1], digestOf).0
  }

  predicate Fits(mechanism: Mechanism, n: nat) {
    mechanism.HashLocally() || n <= PRE_HASHED_LIMIT
  }

  /** However the input is split and whatever sizes are asked for in between, the
      operation holds exactly the bytes fed so far while they fit, and is gone
      once they do not. */
  lemma {:induction false} RunCollects(mechanism: Mechanism, calls: seq<Call>,
                                       digestOf: (Hash, seq<Byte>) -> seq<Byte>)
    requires forall c :: c in calls ==> Interim(c)
    ensures var s := Run(Setup(mechanism), calls, digestOf);
            if Fits(mechanism, |Fed(calls)|)
            then s.active && s.mechanism == mechanism && s.Input() == Fed(calls)
            else s == IDLE
  {
    if calls != [] {
      RunCollects(mechanism, calls[..|calls| - 1], digestOf);
      assert Interim(calls[|calls| - 1]);
    }
  }

  /** The last call sends what the whole input determines: C_SignFinal after any
      split, and C_Sign with the remainder, send the same request. */
  lemma SplitIndependence(mechanism: Mechanism, calls: seq<Call>, last: seq<Byte>,
                          digestOf: (Hash, seq<Byte>) -> seq<Byte>)
    requires forall c :: c in calls ==> Interim(c)
    requires Fits(mechanism, |Fed(calls) + last|)
    ensures var s := Run(Setup(mechanism), calls, digestOf);
            && Step(s, Sign(Some(last), Enough), digestOf)
            == (IDLE, Payload(mechanism, Fed(calls) + last, digestOf))
            && Step(Step(s, Update(Some(last)), digestOf).0, Final(Enough), digestOf)
            == (IDLE, Payload(mechanism, Fed(calls) + last, digestOf))
  {
    RunCollects(mechanism, calls, digestOf);
    assert Fed(calls) + [] == Fed(calls);
  }

  /** An input over the limit is never sent, whichever call completes it. */
  lemma OversizeNeverSubmits(mechanism: Mechanism, calls: seq<Call>, last: seq<Byte>,
                             digestOf: (Hash, seq<Byte>) -> seq<Byte>)
    requires forall c :: c in calls ==> Interim(c)
    requires !Fits(mechanism, |Fed(calls) + last|)
    ensures var s := Run(Setup(mechanism), calls, digestOf);
            && Step(s, Sign(Some(last), Enough), digestOf).1.Refused?
            && Step(Step(s, Update(Some(last)), digestOf).0, Final(Enough), digestOf).1.Refused?
  {
    RunCollects(mechanism, calls, digestOf);
  }

  /** The whole path for CKM_RSA_PKCS, completed by C_Sign or by C_SignFinal. The
      module submits exactly when the input is a DigestInfo, and then the bytes the
      backend signs are that DigestInfo with explicit NULL parameters: the
      application's own bytes if it wrote them so, the normalised form if it left the
      parameters out. */
  lemma RsaPkcsEndToEnd(calls: seq<Call>, last: seq<Byte>, keyBits: nat,
                        digestOf: (Hash, seq<Byte>) -> seq<Byte>)
    requires forall c :: c in calls ==> Interim(c)
    ensures var data := Fed(calls) + last;
            var s := Run(Setup(RsaPkcs), calls, digestOf);
            var reply := Step(s, Sign(Some(last), Enough), digestOf).1;
            var final := Step(Step(s, Update(Some(last)), digestOf).0, Final(Enough), digestOf).1;
            && (reply.Submit? <==> Parse(data).Some?) && (final.Submit? <==> reply.Submit?)
            && (reply.Submit? ==> final == reply)
            && (reply.Submit? && ParsePkcs1(reply.hash, keyBits).Some? ==>
                  && |reply.data| == HashLength(reply.hash)
                  && var signed := Prepare(ParsePkcs1(reply.hash, keyBits).value, reply.data);
                  && signed == Some(Structure(reply.hash, true, reply.data))
                  && (data == Structure(reply.hash, true, reply.data) ==> signed == Some(data))
                  && (signed != Some(data) ==> data == Structure(reply.hash, false, reply.data)))
  {
    var data := Fed(calls) + last;
    if Parse(data).Some? {
      var p := Parse(data).value;
      ParseIff(data, p.hash, p.digest);
      StructureSize(p.hash, true, p.digest);
      StructureSize(p.hash, false, p.digest);
      SplitIndependence(RsaPkcs, calls, last, digestOf);
      if ParsePkcs1(p.hash, keyBits).Some? {
        BackendRestores(data, keyBits);
      }
    } else if Fits(RsaPkcs, |data|) {
      SplitIndependence(RsaPkcs, calls, last, digestOf);
    } else {
      OversizeNeverSubmits(RsaPkcs, calls, last, digestOf);
    }
  }
}
