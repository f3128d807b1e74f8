/** What a request's filter asks, clause by clause and in plain terms, and the order in
    which the matching candidates are offered (src/tokens/filter.c). */
module FilterClauses {
  import opened Optional
  import opened Tokens
  import opened CandidateFilter

  /** ASCII letters in lower case. */
  function LowerCase(s: string): (t: string)
    ensures |t| == |s|
  {
    seq(|s|, i requires 0 <= i < |s| =>
      if 'A' <= s[i] <= 'Z' then ('a' as int + (s[i] as int - 'A' as int)) as char else s[i])
  }

  lemma SameLower(a: string, b: string)
    ensures SameText(a, b) <==> LowerCase(a) == LowerCase(b)
  {
    if SameText(a, b) {
      forall i | 0 <= i < |a| ensures LowerCase(a)[i] == LowerCase(b)[i] {
        assert Lower(a[i]) == Lower(b[i]);
      }
    }
    if LowerCase(a) == LowerCase(b) {
      assert |a| == |b|;
      forall i | 0 <= i < |a| ensures Lower(a[i]) == Lower(b[i]) {
        assert LowerCase(a)[i] == LowerCase(b)[i];
      }
    }
  }

  lemma BeginsLower(text: string, prefix: string)
    requires LowerCase(prefix) == prefix
    ensures Begins(text, prefix) <==> prefix <= LowerCase(text)
  {
    if |prefix| <= |text| {
      SameLower(text[..|prefix|], prefix);
      assert LowerCase(text[..|prefix|]) == LowerCase(text)[..|prefix|];
    }
  }

  /** The list holds this text, whatever the case of its letters. */
  predicate Lists(list: seq<string>, text: string) {
    exists i :: 0 <= i < |list| && LowerCase(list[i]) == LowerCase(text)
  }

  lemma HasLower(list: seq<string>, text: string)
    ensures HasText(list, text) <==> Lists(list, text)
  {
    forall i | 0 <= i < |list| ensures SameText(list[i], text) <==> LowerCase(list[i]) == LowerCase(text) {
      SameLower(list[i], text);
    }
    hide SameText, LowerCase;
  }

  /** A wanted algorithm is the key's type, one of the token's mechanisms, or a name that
      begins as those of the key's type do. */
  predicate Suits(c: Certificate, wanted: string) {
    || LowerCase(wanted) == LowerCase(c.keyType)
    || Lists(c.mechanisms, wanted)
    || (c.keyType == "RSA" && "rsa" <= LowerCase(wanted))
    || (c.keyType == "EC" && "ec" <= LowerCase(wanted))
  }

  lemma AlgorithmIs(c: Certificate, wanted: string)
    ensures AlgorithmFits(c, wanted) <==> Suits(c, wanted)
  {
    SameLower(wanted, c.keyType);
    HasLower(c.mechanisms, wanted);
    assert LowerCase("rsa") == "rsa" && LowerCase("ec") == "ec" && LowerCase("ecdsa") == "ecdsa";
    BeginsLower(wanted, "rsa");
    BeginsLower(wanted, "ec");
    BeginsLower(wanted, "ecdsa");
    assert "ecdsa"[..2] == "ec";
    assert "ecdsa" <= LowerCase(wanted) ==> "ec" <= LowerCase(wanted) by {
      if "ecdsa" <= LowerCase(wanted) {
        assert LowerCase(wanted)[..2] == LowerCase(wanted)[..5][..2];
      }
    }
    hide SameText, HasText, LowerCase, Begins, Lists;
  }

  /** The certificate lists no extended usage, or one of those the purpose asks for: any
      usage; client authentication or smart card logon; code signing; e-mail protection. */
  predicate Serves(c: Certificate, purpose: Purpose) {
    || c.ekus.None?
    || "2.5.29.37.0" in c.ekus.value
    || (purpose in {ClientAuth, Signing}
        && ("1.3.6.1.5.5.7.3.2" in c.ekus.value || "1.3.6.1.4.1.311.20.2.2" in c.ekus.value))
    || (purpose == Signing && "1.3.6.1.5.5.7.3.3" in c.ekus.value)
    || (purpose in {Signing, Email} && "1.3.6.1.5.5.7.3.4" in c.ekus.value)
  }

  lemma ServesIs(c: Certificate, purpose: Purpose)
    requires purpose in {ClientAuth, Signing, Email}
    ensures EkuSuits(c, purpose) <==> Serves(c, purpose)
  {
    if Serves(c, purpose) && c.ekus.Some? {
      assert forall oid :: oid in Wanted(purpose) && oid in c.ekus.value ==> EkuSuits(c, purpose);
      assert EKU_ANY in Wanted(purpose);
      assert purpose in {ClientAuth, Signing} ==>
               EKU_CLIENT_AUTH in Wanted(purpose) && EKU_SMARTCARD_LOGON in Wanted(purpose);
      assert purpose == Signing ==> EKU_CODE_SIGNING in Wanted(purpose);
      assert purpose in {Signing, Email} ==> EKU_EMAIL_PROTECTION in Wanted(purpose);
    }
  }

  /** What this purpose lets the key do. */
  predicate Allows(c: Certificate, purpose: Purpose, op: Operation) {
    if op == Sign then
      || (purpose == Ssh && c.canSign && c.keyType in {"RSA", "EC"})
      || (purpose in {ClientAuth, Signing, Email} && Serves(c, purpose) && c.canSign
          && (c.usages.None? || "digital_signature" in c.usages.value
              || "content_commitment" in c.usages.value))
    else
      purpose == Email && Serves(c, purpose) && c.canDecrypt
      && (c.usages.None? || "key_encipherment" in c.usages.value
          || "data_encipherment" in c.usages.value)
  }

  /** A candidate is offered if and only if its purpose allows one of the wanted
      operations, its issuer is wanted, it states every wanted usage, permits every
      wanted purpose, fits one of the wanted algorithms, and is where it is wanted. An
      empty list, or an empty name, wants nothing. */
  lemma MatchesIff(f: Filter, e: Entry)
    ensures var c := e.certificate;
            Matches(f, e) <==>
              && (exists op :: op in f.operations && Allows(c, f.purpose, op))
              && (f.issuers != [] ==> c.issuer.Some? && c.issuer.value in f.issuers)
              && (f.usages != [] ==> c.usages.Some?)
              && (c.usages.Some? ==>
                    forall i :: 0 <= i < |f.usages| ==> Lists(c.usages.value, f.usages[i]))
              && (forall i :: 0 <= i < |f.ekus| ==>
                    c.ekus.None? || "2.5.29.37.0" in c.ekus.value || f.ekus[i] in c.ekus.value)
              && (f.algorithms != [] ==> exists i :: 0 <= i < |f.algorithms| && Suits(c, f.algorithms[i]))
              && (f.tokenName == "" || e.candidate.token.name == Some(f.tokenName))
              && (f.slot == "" || c.slot == Some(f.slot))
  {
    var c := e.certificate;
    OperationsIs(c, f.purpose, f.operations);
    AlgorithmsAre(c, f.algorithms);
    UsagesAre(c, f.usages);
    assert EkusFit(c, f.ekus)
           <==> forall i :: 0 <= i < |f.ekus| ==>
                  c.ekus.None? || "2.5.29.37.0" in c.ekus.value || f.ekus[i] in c.ekus.value;
    hide Operations, AlgorithmsFit, Suits, UsagesFit, EkusFit, Lists, Allows;
  }

  lemma AlgorithmsAre(c: Certificate, algorithms: seq<string>)
    ensures AlgorithmsFit(c, algorithms)
            <==> (algorithms != [] ==> exists i :: 0 <= i < |algorithms| && Suits(c, algorithms[i]))
  {
    forall i | 0 <= i < |algorithms| ensures AlgorithmFits(c, algorithms[i]) <==> Suits(c, algorithms[i]) {
      AlgorithmIs(c, algorithms[i]);
    }
    hide AlgorithmFits, Suits;
  }

  lemma UsagesAre(c: Certificate, usages: seq<string>)
    ensures UsagesFit(c, usages)
            <==> (usages != [] ==> c.usages.Some?)
                 && (c.usages.Some? ==>
                       forall i :: 0 <= i < |usages| ==> Lists(c.usages.value, usages[i]))
  {
    if c.usages.Some? {
      forall i | 0 <= i < |usages|
        ensures HasText(c.usages.value, usages[i]) <==> Lists(c.usages.value, usages[i])
      {
        HasLower(c.usages.value, usages[i]);
      }
    }
    hide HasText, Lists;
  }

  lemma OperationsIs(c: Certificate, purpose: Purpose, operations: set<Operation>)
    ensures Operations(c, purpose) * operations != {}
            <==> exists op :: op in operations && Allows(c, purpose, op)
  {
    PurposeTable(c, purpose);
    if purpose in {ClientAuth, Signing, Email} {
      ServesIs(c, purpose);
    }
    hide EkuSuits, Serves;
    forall op ensures op in Operations(c, purpose) <==> Allows(c, purpose, op) {
      hide Operations;
    }
    hide Operations, Allows;
    if Operations(c, purpose) * operations != {} {
      var op :| op in Operations(c, purpose) * operations;
    }
    if exists op :: op in operations && Allows(c, purpose, op) {
      var op :| op in operations && Allows(c, purpose, op);
      assert op in Operations(c, purpose) * operations;
    }
  }

  lemma {:induction false} PickOrder(f: Filter, listing: seq<Entry>, current: bool, i: nat, j: nat)
    returns (p: nat, q: nat)
    requires i < j < |Pick(f, listing, current)|
    ensures p < q < |listing|
    ensures listing[p] == Pick(f, listing, current)[i] && listing[q] == Pick(f, listing, current)[j]
  {
    hide Matches;
    var rest := listing[..|listing| - 1];
    if j < |Pick(f, rest, current)| {
      p, q := PickOrder(f, rest, current, i, j);
    } else {
      p := PickFrom(f, rest, current, i);
      q := |listing| - 1;
    }
  }

  lemma {:induction false} PickFrom(f: Filter, listing: seq<Entry>, current: bool, i: nat)
    returns (p: nat)
    requires i < |Pick(f, listing, current)|
    ensures p < |listing| && listing[p] == Pick(f, listing, current)[i]
  {
    hide Matches;
    var rest := listing[..|listing| - 1];
    p := |listing| - 1;
    if i < |Pick(f, rest, current)| {
      p := PickFrom(f, rest, current, i);
    }
  }

  /** Two candidates that are both valid now, or both not, are offered in the order in
      which they were listed. */
  lemma OrderIsKept(f: Filter, listing: seq<Entry>, i: nat, j: nat)
    requires i < j < |Apply(f, listing)|
    requires Apply(f, listing)[i].current == Apply(f, listing)[j].current
    ensures exists p, q :: 0 <= p < q < |listing| && listing[p] == Apply(f, listing)[i]
                           && listing[q] == Apply(f, listing)[j]
  {
    hide Matches;
    var now := |Pick(f, listing, true)|;
    if j < now {
      var p, q := PickOrder(f, listing, true, i, j);
    } else if i >= now {
      var p, q := PickOrder(f, listing, false, i - now, j - now);
    } else {
      PickAll(f, listing, true, i);
      PickAll(f, listing, false, j - now);
    }
  }
}
