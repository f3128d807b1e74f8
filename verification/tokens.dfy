/** Token and credential identity (src/tokens/discovery.c): three relations with
    different answers for a token that reports no serial number. */
module Tokens {
  import opened Der
  import opened Optional

  /** A C string that may be NULL. `name` below is the source's token label. */
  type Text = Option<string>

  datatype Token = Token(driver: nat, slot: nat, serial: Text,
                         name: Text, model: Text, manufacturer: Text)

  datatype Candidate = Candidate(token: Token, certificateId: Text, keyId: Option<seq<Byte>>)

  predicate HasSerial(t: Token) { t.serial.Some? && t.serial.value != "" }

  predicate SameToken(a: Token, b: Token) {
    && HasSerial(a)
    && a.serial == b.serial && a.name == b.name
    && a.model == b.model && a.manufacturer == b.manufacturer
  }

  predicate SamePresence(a: Token, b: Token) {
    if HasSerial(a) then SameToken(a, b)
    else
      && !HasSerial(b)
      && a.driver == b.driver && a.slot == b.slot
      && a.name == b.name && a.model == b.model && a.manufacturer == b.manufacturer
  }

  predicate SameCandidate(a: Candidate, b: Candidate) {
    && SameToken(a.token, b.token)
    && a.certificateId == b.certificateId
    && a.keyId.Some? && b.keyId.Some? && a.keyId == b.keyId
  }

  /** What presence tracking distinguishes: the stable attributes of a token with
      a serial, the position of one without. */
  datatype Key =
    | Stable(serial: string, name: Text, model: Text, manufacturer: Text)
    | Positional(driver: nat, slot: nat, name: Text, model: Text, manufacturer: Text)

  function KeyOf(t: Token): Key {
    if HasSerial(t) then Stable(t.serial.value, t.name, t.model, t.manufacturer)
    else Positional(t.driver, t.slot, t.name, t.model, t.manufacturer)
  }

  /** Presence is an equivalence: its classes are the keys. */
  lemma PresenceIsKey(a: Token, b: Token)
    ensures SamePresence(a, b) <==> KeyOf(a) == KeyOf(b)
  {
    assert HasSerial(a) && HasSerial(b) ==>
        (a.serial == b.serial <==> a.serial.value == b.serial.value);
  }

  /** Identity for rebinding a grant is symmetric and transitive, but reflexive
      only where there is a serial; presence is exactly its reflexive extension
      to tokens that stay where they are. */
  lemma TokenIdentity(a: Token, b: Token, c: Token)
    ensures SameToken(a, b) ==> SameToken(b, a)
    ensures SameToken(a, b) && SameToken(b, c) ==> SameToken(a, c)
    ensures SameToken(a, a) <==> HasSerial(a)
    ensures SameToken(a, b) <==> SamePresence(a, b) && HasSerial(a)
  {
  }

  lemma CandidateIdentity(a: Candidate, b: Candidate, c: Candidate)
    ensures SameCandidate(a, b) ==> SameCandidate(b, a)
    ensures SameCandidate(a, b) && SameCandidate(b, c) ==> SameCandidate(a, c)
    ensures SameCandidate(a, a) <==> HasSerial(a.token) && a.keyId.Some?
  {
  }
}
