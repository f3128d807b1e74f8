/** The chooser's list of candidates (src/core/chooser.c): every change of the list is
    a new revision, and a consent counts only for the revision it was given on. */
module CandidateChooser {
  import opened Optional
  import opened Tokens
  import opened CandidateFilter

  datatype Choice = Choice(id: nat, entry: Entry)

  /** `views` is the history of what each revision showed. */
  datatype Chooser = Chooser(
    choices: seq<Choice>, nextId: nat, revision: nat, reading: bool, cancelIdle: bool,
    views: map<nat, seq<Choice>>)

  const EMPTY := Chooser([], 0, 0, false, false, map[])

  /** The identifier an earlier row of the same credential had, or 0. */
  function KnownId(choices: seq<Choice>, candidate: Candidate): nat {
    if choices == [] then 0
    else if SameCandidate(choices[0].entry.candidate, candidate) then choices[0].id
    else KnownId(choices[1..], candidate)
  }

  /** New rows for `listing`, and the last identifier given out. */
  function Rows(previous: seq<Choice>, nextId: nat, listing: seq<Entry>): (seq<Choice>, nat) {
    if listing == [] then ([], nextId)
    else
      var last := listing[|listing| - 1];
      var (rows, next) := Rows(previous, nextId, listing[..|listing| - 1]);
      var known := KnownId(previous, last.candidate);
      if known == 0 then (rows + [Choice(next + 1, last)], next + 1)
      else (rows + [Choice(known, last)], next)
  }

  function Shown(c: Chooser): Chooser { c.(views := c.views[c.revision := c.choices]) }

  function Replaced(c: Chooser, listing: seq<Entry>): Chooser {
    var (rows, next) := Rows(c.choices, c.nextId, listing);
    Shown(c.(choices := rows, nextId := next, revision := c.revision + 1))
  }

  function Updated(c: Chooser, listing: seq<Entry>): Chooser {
    Replaced(c.(reading := false), listing)
  }

  function Reading(c: Chooser, reading: bool): Chooser {
    if c.reading == reading then c
    else Shown(c.(reading := reading, revision := c.revision + 1))
  }

  function Find(choices: seq<Choice>, id: nat): Option<Entry> {
    if choices == [] then None
    else if choices[0].id == id then Some(choices[0].entry)
    else Find(choices[1..], id)
  }

  /** What a reply naming a revision and a row chooses. */
  function Chosen(c: Chooser, revision: nat, id: nat): Option<Entry> {
    if revision != c.revision || id == 0 then None else Find(c.choices, id)
  }

  method ReplaceRows(previous: seq<Choice>, nextId: nat, listing: seq<Entry>)
    returns (rows: seq<Choice>, next: nat)
    ensures (rows, next) == Rows(previous, nextId, listing)
  {
    rows, next := [], nextId;
    for i := 0 to |listing|
      invariant (rows, next) == Rows(previous, nextId, listing[..i])
    {
      assert listing[..i + 1][..i] == listing[..i];
      var id := 0;
      for j := 0 to |previous|
        invariant id == 0
        invariant KnownId(previous, listing[i].candidate)
               == KnownId(previous[j..], listing[i].candidate)
      {
        if SameCandidate(previous[j].entry.candidate, listing[i].candidate) {
          id := previous[j].id;
          break;
        }
        assert previous[j..][1..] == previous[j + 1..];
      }
      if id == 0 {
        next := next + 1;
        id := next;
      }
      rows := rows + [Choice(id, listing[i])];
    }
    assert listing[..|listing|] == listing;
  }

  method FindChoice(choices: seq<Choice>, id: nat) returns (entry: Option<Entry>)
    ensures entry == Find(choices, id)
  {
    for i := 0 to |choices|
      invariant Find(choices, id) == Find(choices[i..], id)
    {
      if choices[i].id == id {
        return Some(choices[i].entry);
      }
      assert choices[i..][1..] == choices[i + 1..];
    }
    entry := None;
  }

  // ----- Rows, identifiers and revisions -----

  ghost predicate IdsSound(choices: seq<Choice>, nextId: nat) {
    forall i :: 0 <= i < |choices| ==> 1 <= choices[i].id <= nextId
  }

  ghost predicate IdsDistinct(choices: seq<Choice>) {
    forall i, j :: 0 <= i < j < |choices| ==> choices[i].id != choices[j].id
  }

  /** No credential is listed twice. */
  ghost predicate NoTwins(listing: seq<Entry>) {
    forall i, j :: 0 <= i < j < |listing| ==>
      !SameCandidate(listing[i].candidate, listing[j].candidate)
  }

  lemma {:induction false} KnownIdIs(choices: seq<Choice>, candidate: Candidate) returns (k: nat)
    ensures KnownId(choices, candidate) != 0 ==>
              k < |choices| && choices[k].id == KnownId(choices, candidate)
              && SameCandidate(choices[k].entry.candidate, candidate)
  {
    k := 0;
    if choices != [] && !SameCandidate(choices[0].entry.candidate, candidate) {
      k := KnownIdIs(choices[1..], candidate);
      k := k + 1;
    }
  }

  lemma {:induction false} KnownIdOf(choices: seq<Choice>, candidate: Candidate, k: nat)
    requires k < |choices| && SameCandidate(choices[k].entry.candidate, candidate)
    requires forall i :: 0 <= i < |choices| ==> choices[i].id != 0
    ensures KnownId(choices, candidate) != 0
  {
    if !SameCandidate(choices[0].entry.candidate, candidate) {
      KnownIdOf(choices[1..], candidate, k - 1);
    }
  }

  lemma {:induction false} RowsFacts(previous: seq<Choice>, nextId: nat, listing: seq<Entry>)
    requires IdsSound(previous, nextId)
    ensures var (rows, next) := Rows(previous, nextId, listing);
            && |rows| == |listing| && nextId <= next && IdsSound(rows, next)
            && (forall i :: 0 <= i < |rows| ==>
                  rows[i].entry == listing[i]
                  && KnownId(previous, listing[i].candidate)
                     == if rows[i].id <= nextId then rows[i].id else 0)
            && (forall i, j :: 0 <= i < j < |rows| && rows[i].id > nextId && rows[j].id > nextId ==>
                  rows[i].id < rows[j].id)
  {
    if listing != [] {
      var last := |listing| - 1;
      RowsFacts(previous, nextId, listing[..last]);
      var k := KnownIdIs(previous, listing[last].candidate);
    }
  }

  /** A row keeps the identifier of the earlier row of its credential, takes a new one
      if there was none, and no identifier stands for two rows. */
  lemma RowsKeepIdentity(previous: seq<Choice>, nextId: nat, listing: seq<Entry>, i: nat, j: nat)
    requires IdsSound(previous, nextId) && IdsDistinct(previous)
    requires NoTwins(listing) && NoTwins(Entries(previous))
    ensures var (rows, next) := Rows(previous, nextId, listing);
            && |rows| == |listing| && IdsSound(rows, next) && IdsDistinct(rows)
            && (i < |rows| && j < |previous| ==>
                  (rows[i].id == previous[j].id
                   <==> SameCandidate(previous[j].entry.candidate, listing[i].candidate)))
  {
    RowsFacts(previous, nextId, listing);
    var (rows, next) := Rows(previous, nextId, listing);
    forall a, b | 0 <= a < b < |rows| ensures rows[a].id != rows[b].id {
      if rows[a].id == rows[b].id {
        var k := KnownIdIs(previous, listing[a].candidate);
        var l := KnownIdIs(previous, listing[b].candidate);
        if rows[a].id <= nextId {
          assert k == l;
          Twins(previous[k].entry.candidate, listing[a].candidate, listing[b].candidate);
        }
      }
    }
    if i < |rows| && j < |previous| {
      var k := KnownIdIs(previous, listing[i].candidate);
      if SameCandidate(previous[j].entry.candidate, listing[i].candidate) {
        KnownIdOf(previous, listing[i].candidate, j);
        TwinsBack(listing[i].candidate, previous[k].entry.candidate, previous[j].entry.candidate);
        assert Entries(previous)[k] == previous[k].entry && Entries(previous)[j] == previous[j].entry;
      }
      if rows[i].id == previous[j].id {
        assert k == j;
      }
    }
  }

  function Entries(choices: seq<Choice>): seq<Entry> {
    seq(|choices|, i requires 0 <= i < |choices| => choices[i].entry)
  }

  lemma TwinsBack(a: Candidate, b: Candidate, c: Candidate)
    requires SameCandidate(b, a) && SameCandidate(c, a)
    ensures SameCandidate(b, c) && SameCandidate(c, b)
  {
    CandidateIdentity(c, a, b);
    CandidateIdentity(b, a, c);
  }

  lemma Twins(a: Candidate, b: Candidate, c: Candidate)
    requires SameCandidate(a, b) && SameCandidate(a, c)
    ensures SameCandidate(b, c)
  {
    CandidateIdentity(a, b, c);
    CandidateIdentity(b, a, c);
  }

  /** Identifiers within range, and the current view on record as it is shown. */
  ghost predicate Sound(c: Chooser) {
    && IdsSound(c.choices, c.nextId)
    && (forall r :: r in c.views ==> r <= c.revision)
    && c.revision in c.views && c.views[c.revision] == c.choices
  }

  /** Every change is a new revision; what earlier ones showed is not rewritten. */
  lemma RevisionsAreFinal(c: Chooser, listing: seq<Entry>, reading: bool)
    requires Sound(c) || c == EMPTY
    ensures Sound(Updated(c, listing)) && Updated(c, listing).revision == c.revision + 1
    ensures Updated(c, listing).choices == Rows(c.choices, c.nextId, listing).0
    ensures forall r :: r in c.views ==> r in Updated(c, listing).views
                                         && Updated(c, listing).views[r] == c.views[r]
    ensures Sound(c) ==> Sound(Reading(c, reading)) && Reading(c, reading).choices == c.choices
    ensures Reading(c, reading).revision == c.revision + (if c.reading == reading then 0 else 1)
    ensures forall r :: r in c.views ==> r in Reading(c, reading).views
                                         && Reading(c, reading).views[r] == c.views[r]
  {
    RowsFacts(c.choices, c.nextId, listing);
  }

  // ----- Identifiers over a whole conversation -----

  datatype Change = Update(listing: seq<Entry>) | Read(reading: bool)

  function Changed(c: Chooser, change: Change): Chooser {
    match change
    case Update(listing) => Updated(c, listing)
    case Read(reading) => Reading(c, reading)
  }

  /** What a chooser that opened with `listing` has shown after the changes. */
  function Conversation(listing: seq<Entry>, changes: seq<Change>): Chooser {
    if changes == [] then Updated(EMPTY, listing)
    else Changed(Conversation(listing, changes[..|changes| - 1]), changes[|changes| - 1])
  }

  /** The same candidate, or two that are recognised as one credential. */
  predicate Alike(a: Choice, b: Choice) {
    a.entry.candidate == b.entry.candidate || SameCandidate(a.entry.candidate, b.entry.candidate)
  }

  /** An identifier means the same in the two lists. */
  ghost predicate Agree(a: seq<Choice>, b: seq<Choice>) {
    forall i, j :: 0 <= i < |a| && 0 <= j < |b| && a[i].id == b[j].id ==> Alike(a[i], b[j])
  }

  ghost predicate AllAgree(c: Chooser) {
    && (forall q, r :: q in c.views && r in c.views ==> Agree(c.views[q], c.views[r]))
    && (forall r :: r in c.views ==> IdsSound(c.views[r], c.nextId))
  }

  lemma AlikeLaws(a: Choice, b: Choice, c: Choice)
    requires Alike(a, b)
    ensures Alike(b, a) && (Alike(b, c) ==> Alike(a, c))
  {
    CandidateIdentity(a.entry.candidate, b.entry.candidate, c.entry.candidate);
  }

  lemma AgreeBack(a: seq<Choice>, b: seq<Choice>)
    requires Agree(a, b)
    ensures Agree(b, a)
  {
    forall i, j | 0 <= i < |b| && 0 <= j < |a| && b[i].id == a[j].id ensures Alike(b[i], a[j]) {
      AlikeLaws(a[j], b[i], a[j]);
    }
  }

  /** New rows agree with everything that agreed with the rows they replace. */
  lemma RowsAgree(previous: seq<Choice>, nextId: nat, listing: seq<Entry>, other: seq<Choice>)
    requires IdsSound(previous, nextId) && IdsSound(other, nextId)
    requires Agree(previous, previous) && Agree(other, previous)
    ensures var (rows, next) := Rows(previous, nextId, listing);
            Agree(other, rows) && Agree(rows, rows) && IdsSound(rows, next) && nextId <= next
  {
    RowsFacts(previous, nextId, listing);
    var (rows, next) := Rows(previous, nextId, listing);
    hide Rows;
    forall i, j | 0 <= i < |other| && 0 <= j < |rows| && other[i].id == rows[j].id
      ensures Alike(other[i], rows[j])
    {
      var k := KnownIdIs(previous, listing[j].candidate);
      assert Alike(other[i], previous[k]);
      AlikeLaws(other[i], previous[k], rows[j]);
    }
    forall i, j | 0 <= i < |rows| && 0 <= j < |rows| && rows[i].id == rows[j].id
      ensures Alike(rows[i], rows[j])
    {
      if rows[i].id <= nextId {
        var k := KnownIdIs(previous, listing[i].candidate);
        var l := KnownIdIs(previous, listing[j].candidate);
        AlikeLaws(previous[k], rows[i], rows[i]);
        AlikeLaws(rows[i], previous[k], previous[l]);
        AlikeLaws(rows[i], previous[l], rows[j]);
      } else {
        assert i == j;
      }
    }
  }

  lemma UpdateAgrees(c: Chooser, listing: seq<Entry>)
    requires (Sound(c) && AllAgree(c)) || c == EMPTY
    ensures AllAgree(Updated(c, listing))
  {
    var d := Updated(c, listing);
    var rows := Rows(c.choices, c.nextId, listing).0;
    RowsAgree(c.choices, c.nextId, listing, []);
    hide Rows, Agree, IdsSound;
    forall r | r in c.views && r != d.revision
      ensures IdsSound(d.views[r], d.nextId) && Agree(d.views[r], rows) && Agree(rows, d.views[r])
    {
      RowsAgree(c.choices, c.nextId, listing, c.views[r]);
      AgreeBack(c.views[r], rows);
      IdsStay(c.views[r], c.nextId, d.nextId);
    }
  }

  lemma IdsStay(choices: seq<Choice>, nextId: nat, next: nat)
    requires IdsSound(choices, nextId) && nextId <= next
    ensures IdsSound(choices, next)
  {
  }

  lemma ReadAgrees(c: Chooser, reading: bool)
    requires Sound(c) && AllAgree(c)
    ensures AllAgree(Reading(c, reading))
  {
    hide Agree, IdsSound;
  }

  lemma {:induction false} ConversationAgrees(listing: seq<Entry>, changes: seq<Change>)
    ensures var c := Conversation(listing, changes);
            Sound(c) && AllAgree(c)
  {
    if changes == [] {
      RevisionsAreFinal(EMPTY, listing, false);
      UpdateAgrees(EMPTY, listing);
      hide Updated, Sound, AllAgree;
    } else {
      var c := Conversation(listing, changes[..|changes| - 1]);
      ConversationAgrees(listing, changes[..|changes| - 1]);
      hide Updated, Reading, Sound, AllAgree;
      match changes[|changes| - 1]
      case Update(entries) =>
        RevisionsAreFinal(c, entries, false);
        UpdateAgrees(c, entries);
      case Read(reading) =>
        RevisionsAreFinal(c, [], reading);
        ReadAgrees(c, reading);
    }
  }

  /** One identifier means one credential, in any two rows of any two revisions that a
      chooser ever shows. */
  lemma OneCredentialPerId(listing: seq<Entry>, changes: seq<Change>, q: nat, r: nat, i: nat, j: nat)
    requires var views := Conversation(listing, changes).views;
             q in views && r in views && i < |views[q]| && j < |views[r]|
             && views[q][i].id == views[r][j].id
    ensures var views := Conversation(listing, changes).views;
            Alike(views[q][i], views[r][j])
  {
    ConversationAgrees(listing, changes);
  }

  lemma {:induction false} FindIs(choices: seq<Choice>, id: nat)
    ensures Find(choices, id).Some? ==> Choice(id, Find(choices, id).value) in choices
    ensures Find(choices, id).None? ==> forall e :: Choice(id, e) !in choices
  {
    if choices != [] {
      FindIs(choices[1..], id);
      assert forall c :: c in choices <==> c == choices[0] || c in choices[1..];
    }
  }

  /** A consent is worth something only if it names the revision on show, and then it
      means the entry that revision shows under that identifier. */
  lemma ConsentNamesRevision(c: Chooser, revision: nat, id: nat)
    requires Sound(c)
    ensures Chosen(c, revision, id).Some? ==>
              revision == c.revision && revision in c.views
              && Choice(id, Chosen(c, revision, id).value) in c.views[revision]
    ensures revision == c.revision && Chosen(c, revision, id).None? ==>
              forall e :: Choice(id, e) !in c.choices
  {
    FindIs(c.choices, id);
  }
}
