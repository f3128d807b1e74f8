/** Narrowing an enumeration to what a request may use (src/tokens/filter.c). */
module CandidateFilter {
  import opened Der
  import opened Optional
  import opened Tokens

  datatype Purpose = ClientAuth | Signing | Email | Ssh | OtherPurpose

  datatype Operation = Sign | Decrypt

  /** What the certificate and its key say. A certificate without the extension leaves
      `usages` or `ekus` out; an empty list of purposes permits none. */
  datatype Certificate = Certificate(
    canSign: bool, canDecrypt: bool, keyType: string, usages: Option<seq<string>>,
    ekus: Option<seq<string>>, issuer: Option<seq<Byte>>, mechanisms: seq<string>, slot: Text)

  /** `current` is whether the certificate is valid now. */
  datatype Entry = Entry(candidate: Candidate, certificate: Certificate, current: bool)

  /** An empty clause asks for nothing, as a missing one does. */
  datatype Filter = Filter(
    purpose: Purpose, operations: set<Operation>, issuers: seq<seq<Byte>>, usages: seq<string>,
    ekus: seq<string>, algorithms: seq<string>, tokenName: string, slot: string)

  const EKU_ANY := "2.5.29.37.0"
  const EKU_CLIENT_AUTH := "1.3.6.1.5.5.7.3.2"
  const EKU_CODE_SIGNING := "1.3.6.1.5.5.7.3.3"
  const EKU_EMAIL_PROTECTION := "1.3.6.1.5.5.7.3.4"
  const EKU_SMARTCARD_LOGON := "1.3.6.1.4.1.311.20.2.2"

  // ----- Text -----

  function Lower(c: char): char { if 'A' <= c <= 'Z' then (c as int + 32) as char else c }

  predicate SameText(a: string, b: string) {
    |a| == |b| && forall i :: 0 <= i < |a| ==> Lower(a[i]) == Lower(b[i])
  }

  predicate Begins(text: string, prefix: string) {
    |prefix| <= |text| && SameText(text[..|prefix|], prefix)
  }

  predicate Has(list: Option<seq<string>>, needle: string) {
    list.Some? && needle in list.value
  }

  predicate HasText(list: seq<string>, needle: string) {
    exists i :: 0 <= i < |list| && SameText(list[i], needle)
  }

  // ----- Purposes -----

  predicate EkuAllows(c: Certificate, oid: string) {
    c.ekus.None? || Has(c.ekus, EKU_ANY) || Has(c.ekus, oid)
  }

  predicate MaySign(c: Certificate) {
    c.canSign && (c.usages.None? || Has(c.usages, "digital_signature")
                  || Has(c.usages, "content_commitment"))
  }

  /** Some issuers use dataEncipherment for key transport. */
  predicate MayDecrypt(c: Certificate) {
    c.canDecrypt && (c.usages.None? || Has(c.usages, "key_encipherment")
                     || Has(c.usages, "data_encipherment"))
  }

  /** SSH uses the raw key and does not consult the certificate. */
  function Operations(c: Certificate, purpose: Purpose): set<Operation> {
    match purpose
    case ClientAuth =>
      if !MaySign(c) then {}
      else if c.ekus.None? || EkuAllows(c, EKU_CLIENT_AUTH) || Has(c.ekus, EKU_SMARTCARD_LOGON)
      then {Sign} else {}
    case Signing =>
      if !MaySign(c) then {}
      else if c.ekus.None? then {Sign}
      else if Has(c.ekus, EKU_ANY) || Has(c.ekus, EKU_CODE_SIGNING)
              || Has(c.ekus, EKU_EMAIL_PROTECTION) || Has(c.ekus, EKU_CLIENT_AUTH)
              || Has(c.ekus, EKU_SMARTCARD_LOGON) then {Sign}
      else {}
    case Email =>
      if !EkuAllows(c, EKU_EMAIL_PROTECTION) then {}
      else (if MaySign(c) then {Sign} else {}) + if MayDecrypt(c) then {Decrypt} else {}
    case Ssh => if c.canSign && (c.keyType == "RSA" || c.keyType == "EC") then {Sign} else {}
    case OtherPurpose => {}
  }

  // ----- Clauses -----

  predicate IssuerFits(c: Certificate, issuers: seq<seq<Byte>>) {
    issuers == [] || (c.issuer.Some? && c.issuer.value in issuers)
  }

  /** A key type, a mechanism of the token, or the beginning of a TLS scheme's name. */
  predicate AlgorithmFits(c: Certificate, wanted: string) {
    || SameText(wanted, c.keyType)
    || HasText(c.mechanisms, wanted)
    || (Begins(wanted, "rsa") && c.keyType == "RSA")
    || ((Begins(wanted, "ecdsa") || Begins(wanted, "ec")) && c.keyType == "EC")
  }

  predicate AlgorithmsFit(c: Certificate, algorithms: seq<string>) {
    algorithms == [] || exists i :: 0 <= i < |algorithms| && AlgorithmFits(c, algorithms[i])
  }

  /** An explicit usage is not met by a certificate that states none. */
  predicate UsagesFit(c: Certificate, usages: seq<string>) {
    usages == []
    || (c.usages.Some? && forall i :: 0 <= i < |usages| ==> HasText(c.usages.value, usages[i]))
  }

  predicate EkusFit(c: Certificate, ekus: seq<string>) {
    forall i :: 0 <= i < |ekus| ==> EkuAllows(c, ekus[i])
  }

  /** The clauses are intersected. */
  predicate Matches(f: Filter, e: Entry) {
    var c := e.certificate;
    && Operations(c, f.purpose) * f.operations != {}
    && IssuerFits(c, f.issuers) && UsagesFit(c, f.usages) && EkusFit(c, f.ekus)
    && AlgorithmsFit(c, f.algorithms)
    && (f.tokenName != "" ==> e.candidate.token.name == Some(f.tokenName))
    && (f.slot != "" ==> c.slot == Some(f.slot))
  }

  method FindText(list: seq<string>, needle: string) returns (found: bool)
    ensures found == HasText(list, needle)
  {
    for i := 0 to |list|
      invariant forall j :: 0 <= j < i ==> !SameText(list[j], needle)
    {
      if SameText(list[i], needle) {
        return true;
      }
    }
    found := false;
  }

  method IssuerMatches(c: Certificate, issuers: seq<seq<Byte>>) returns (fits: bool)
    ensures fits == IssuerFits(c, issuers)
  {
    if |issuers| == 0 {
      return true;
    }
    if c.issuer.None? {
      return false;
    }
    for i := 0 to |issuers|
      invariant c.issuer.value !in issuers[..i]
    {
      if issuers[i] == c.issuer.value {
        return true;
      }
    }
    assert issuers[..|issuers|] == issuers;
    fits := false;
  }

  method KeyAlgorithmMatches(c: Certificate, algorithms: seq<string>) returns (fits: bool)
    ensures fits == AlgorithmsFit(c, algorithms)
  {
    if |algorithms| == 0 {
      return true;
    }
    for i := 0 to |algorithms|
      invariant forall j :: 0 <= j < i ==> !AlgorithmFits(c, algorithms[j])
    {
      if SameText(algorithms[i], c.keyType) {
        return true;
      }
      var known := FindText(c.mechanisms, algorithms[i]);
      if known {
        return true;
      }
      if Begins(algorithms[i], "rsa") && c.keyType == "RSA" {
        return true;
      }
      if (Begins(algorithms[i], "ecdsa") || Begins(algorithms[i], "ec")) && c.keyType == "EC" {
        return true;
      }
    }
    fits := false;
  }

  method UsagesMatch(c: Certificate, usages: seq<string>) returns (fits: bool)
    ensures fits == UsagesFit(c, usages)
  {
    for i := 0 to |usages|
      invariant UsagesFit(c, usages[..i])
    {
      assert usages[..i + 1] == usages[..i] + [usages[i]];
      if c.usages.None? {
        return false;
      }
      fits := FindText(c.usages.value, usages[i]);
      if !fits {
        return false;
      }
    }
    assert usages[..|usages|] == usages;
    fits := true;
  }

  method FilterMatches(f: Filter, e: Entry) returns (matches: bool)
    ensures matches == Matches(f, e)
  {
    var c := e.certificate;
    if Operations(c, f.purpose) * f.operations == {} {
      return false;
    }
    var issuerFits := IssuerMatches(c, f.issuers);
    if !issuerFits {
      return false;
    }
    var usagesFit := UsagesMatch(c, f.usages);
    if !usagesFit {
      return false;
    }
    for i := 0 to |f.ekus|
      invariant forall j :: 0 <= j < i ==> EkuAllows(c, f.ekus[j])
    {
      if !EkuAllows(c, f.ekus[i]) {
        return false;
      }
    }
    var algorithmFits := KeyAlgorithmMatches(c, f.algorithms);
    matches := algorithmFits && (f.tokenName == "" || e.candidate.token.name == Some(f.tokenName))
               && (f.slot == "" || c.slot == Some(f.slot));
  }

  // ----- What a filter promises -----

  /** The extended key usages one of which a purpose asks for, if the certificate
      lists any. */
  function Wanted(purpose: Purpose): set<string> {
    match purpose
    case ClientAuth => {EKU_ANY, EKU_CLIENT_AUTH, EKU_SMARTCARD_LOGON}
    case Signing =>
      {EKU_ANY, EKU_CODE_SIGNING, EKU_EMAIL_PROTECTION, EKU_CLIENT_AUTH, EKU_SMARTCARD_LOGON}
    case Email => {EKU_ANY, EKU_EMAIL_PROTECTION}
    case _ => {}
  }

  predicate EkuSuits(c: Certificate, purpose: Purpose) {
    c.ekus.None? || exists oid :: oid in Wanted(purpose) && oid in c.ekus.value
  }

  /** The purpose table at a glance: decryption is for e-mail alone, SSH looks at the
      key alone, and everything else asks the key, its usage and its purposes. */
  lemma PurposeTable(c: Certificate, purpose: Purpose)
    ensures Sign in Operations(c, purpose) <==>
              || (purpose == Ssh && c.canSign && c.keyType in {"RSA", "EC"})
              || (purpose in {ClientAuth, Signing, Email} && EkuSuits(c, purpose) && c.canSign
                  && (c.usages.None? || "digital_signature" in c.usages.value
                      || "content_commitment" in c.usages.value))
    ensures Decrypt in Operations(c, purpose) <==>
              purpose == Email && EkuSuits(c, purpose) && c.canDecrypt
              && (c.usages.None? || "key_encipherment" in c.usages.value
                  || "data_encipherment" in c.usages.value)
  {
    assert {EKU_ANY, EKU_CLIENT_AUTH, EKU_SMARTCARD_LOGON, EKU_EMAIL_PROTECTION, EKU_CODE_SIGNING}
        >= Wanted(purpose);
    if c.ekus.Some? {
      assert forall oid :: oid in Wanted(purpose) && oid in c.ekus.value ==> Has(c.ekus, oid);
      assert EKU_ANY in c.ekus.value && Wanted(purpose) != {} ==> EkuSuits(c, purpose);
      assert EKU_CLIENT_AUTH in c.ekus.value && purpose in {ClientAuth, Signing} ==> EkuSuits(c, purpose);
      assert EKU_SMARTCARD_LOGON in c.ekus.value && purpose in {ClientAuth, Signing} ==> EkuSuits(c, purpose);
      assert EKU_EMAIL_PROTECTION in c.ekus.value && purpose in {Email, Signing} ==> EkuSuits(c, purpose);
      assert EKU_CODE_SIGNING in c.ekus.value && purpose == Signing ==> EkuSuits(c, purpose);
    }
  }

  /** `g` asks for everything `f` asks for. */
  ghost predicate Tightens(g: Filter, f: Filter) {
    && g.purpose == f.purpose && g.operations <= f.operations
    && (f.issuers != [] ==> g.issuers != [] && forall x :: x in g.issuers ==> x in f.issuers)
    && (forall x :: x in f.usages ==> x in g.usages) && (forall x :: x in f.ekus ==> x in g.ekus)
    && (f.algorithms != [] ==>
          g.algorithms != [] && forall x :: x in g.algorithms ==> x in f.algorithms)
    && (f.tokenName != "" ==> g.tokenName == f.tokenName) && (f.slot != "" ==> g.slot == f.slot)
  }

  lemma OperationsNarrow(allowed: set<Operation>, more: set<Operation>, less: set<Operation>)
    requires allowed * more != {} && more <= less
    ensures allowed * less != {}
  {
    var op :| op in allowed * more;
    assert op in allowed * less;
  }

  lemma UsagesNarrow(c: Certificate, more: seq<string>, less: seq<string>)
    requires UsagesFit(c, more) && forall x :: x in less ==> x in more
    ensures UsagesFit(c, less)
  {
    if less != [] {
      assert less[0] in more;
      hide HasText;
      forall i | 0 <= i < |less| ensures HasText(c.usages.value, less[i]) {
        assert less[i] in more;
        var j :| 0 <= j < |more| && more[j] == less[i];
      }
    }
  }

  lemma EkusNarrow(c: Certificate, more: seq<string>, less: seq<string>)
    requires EkusFit(c, more) && forall x :: x in less ==> x in more
    ensures EkusFit(c, less)
  {
    hide EkuAllows;
    forall i | 0 <= i < |less| ensures EkuAllows(c, less[i]) {
      assert less[i] in more;
      var j :| 0 <= j < |more| && more[j] == less[i];
    }
  }

  lemma AlgorithmsNarrow(c: Certificate, more: seq<string>, less: seq<string>)
    requires AlgorithmsFit(c, more)
    requires less != [] ==> more != [] && forall x :: x in more ==> x in less
    ensures AlgorithmsFit(c, less)
  {
    hide AlgorithmFits;
    if less != [] {
      var i :| 0 <= i < |more| && AlgorithmFits(c, more[i]);
      assert more[i] in less;
      var j :| 0 <= j < |less| && less[j] == more[i];
    }
  }

  /** A clause can only narrow what is offered. */
  lemma ClausesNarrow(g: Filter, f: Filter, e: Entry)
    requires Tightens(g, f) && Matches(g, e)
    ensures Matches(f, e)
  {
    hide Operations, UsagesFit, EkusFit, AlgorithmsFit;
    OperationsNarrow(Operations(e.certificate, f.purpose), g.operations, f.operations);
    UsagesNarrow(e.certificate, g.usages, f.usages);
    EkusNarrow(e.certificate, g.ekus, f.ekus);
    AlgorithmsNarrow(e.certificate, g.algorithms, f.algorithms);
  }

  // ----- Applying a filter -----

  function Pick(f: Filter, listing: seq<Entry>, current: bool): seq<Entry> {
    if listing == [] then []
    else
      var last := listing[|listing| - 1];
      Pick(f, listing[..|listing| - 1], current)
        + if Matches(f, last) && last.current == current then [last] else []
  }

  /** Certificates that are not valid now stay selectable, after those that are. */
  function Apply(f: Filter, listing: seq<Entry>): seq<Entry> {
    Pick(f, listing, true) + Pick(f, listing, false)
  }

  method ApplyFilter(f: Filter, listing: seq<Entry>) returns (usable: seq<Entry>)
    ensures usable == Apply(f, listing)
  {
    hide Matches;
    usable := [];
    var unusable: seq<Entry> := [];
    for i := 0 to |listing|
      invariant usable == Pick(f, listing[..i], true) && unusable == Pick(f, listing[..i], false)
    {
      assert listing[..i + 1][..i] == listing[..i];
      var matches := FilterMatches(f, listing[i]);
      if matches {
        if listing[i].current {
          usable := usable + [listing[i]];
        } else {
          unusable := unusable + [listing[i]];
        }
      }
    }
    assert listing[..|listing|] == listing;
    for i := 0 to |unusable|
      invariant usable == Pick(f, listing, true) + unusable[..i]
    {
      usable := usable + [unusable[i]];
    }
  }

  function Count(listing: seq<Entry>, e: Entry): nat { multiset(listing)[e] }

  lemma {:induction false} PickCount(f: Filter, listing: seq<Entry>, current: bool, e: Entry)
    ensures Count(Pick(f, listing, current), e)
         == if Matches(f, e) && e.current == current then Count(listing, e) else 0
  {
    hide Matches;
    if listing != [] {
      var last := |listing| - 1;
      PickCount(f, listing[..last], current, e);
      assert listing == listing[..last] + [listing[last]];
    }
  }

  /** The filter keeps exactly the matching candidates, each as often as it was
      listed, and puts every certificate that is valid now before those that are not. */
  lemma FilterKeepsMatches(f: Filter, listing: seq<Entry>, e: Entry, i: nat, j: nat)
    ensures Count(Apply(f, listing), e) == if Matches(f, e) then Count(listing, e) else 0
    ensures i < j < |Apply(f, listing)| && Apply(f, listing)[j].current ==> Apply(f, listing)[i].current
  {
    PickCount(f, listing, true, e);
    PickCount(f, listing, false, e);
    hide Matches;
    if i < j < |Apply(f, listing)| && Apply(f, listing)[j].current {
      if j >= |Pick(f, listing, true)| {
        PickAll(f, listing, false, j - |Pick(f, listing, true)|);
      }
      PickAll(f, listing, true, i);
    }
  }

  lemma {:induction false} PickAll(f: Filter, listing: seq<Entry>, current: bool, i: nat)
    requires i < |Pick(f, listing, current)|
    ensures Matches(f, Pick(f, listing, current)[i]) && Pick(f, listing, current)[i].current == current
  {
    hide Matches;
    if listing != [] && i < |Pick(f, listing[..|listing| - 1], current)| {
      PickAll(f, listing[..|listing| - 1], current, i);
    }
  }

  lemma ApplyMatches(f: Filter, listing: seq<Entry>, e: Entry)
    ensures e in Apply(f, listing) <==> e in listing && Matches(f, e)
  {
    FilterKeepsMatches(f, listing, e, 0, 0);
    hide Matches;
    assert e in Apply(f, listing) <==> Count(Apply(f, listing), e) > 0;
  }
}
