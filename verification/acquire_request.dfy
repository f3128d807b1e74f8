/** The acquisition's fields, updated in place by the callbacks of src/core/acquire.c. */
module AcquireRequest {
  import opened Optional
  import opened Tokens
  import opened CandidateFilter
  import opened CandidateChooser
  import opened Acquisition

  class Transaction {
    const filter: Filter
    const forbidden: bool
    const available: bool
    var enumerating: bool
    var again: bool
    var chooser: Option<Chooser>
    var consent: Consent
    var stop: Stop
    var queue: seq<TokenEvent>
    var answer: Option<Code>
    var granted: Option<Entry>
    ghost var trace: Trace

    ghost function View(): Acq reads this {
      Acq(filter, forbidden, available, enumerating, again, chooser, consent, stop, queue, answer, granted,
          trace)
    }

    ghost predicate Valid() reads this { Good(View()) }

    /** The request has been admitted and its first enumeration started. */
    constructor (filter: Filter, forbidden: bool, available: bool)
      ensures Valid() && View() == Begin(filter, forbidden, available)
    {
      this.filter, this.forbidden, this.available := filter, forbidden, available;
      enumerating, again, chooser := true, false, None;
      consent, stop := Consent(false, Fine, None), Stop(false, Fine, false, false);
      queue, answer, granted := [], None, None;
      trace := Trace(0, None, map[], []);
    }

    method CompleteRequest(code: Code)
      modifies this`answer, this`trace
      ensures View() == Complete(old(View()), code)
    {
      trace := trace.(tries := trace.tries + 1);
      if answer.Some? {
        return;
      }
      if stop.code != Fine {
        answer := Some(stop.code);
      } else if stop.cancelled {
        answer := Some(Cancelled);
      } else {
        answer := Some(code);
      }
    }

    method FinishAcquire(entry: Entry)
      modifies this`answer, this`granted, this`trace
      ensures View() == Finish(old(View()), entry)
    {
      hide Complete;
      if stop.intent {
        CompleteRequest(Cancelled);
        return;
      }
      // The session, the frontend or the token may have gone while the chooser was open.
      if stop.closed {
        CompleteRequest(NoSuchSession);
        return;
      }
      if !HasSerial(entry.candidate.token) {
        CompleteRequest(DeviceError);
        return;
      }
      granted := Some(entry);
      CompleteRequest(Fine);
    }

    method StartEnumeration()
      modifies this`enumerating, this`again
      ensures View() == Enumerate(old(View()))
    {
      enumerating := true;
      again := false;
    }

    method TokenEventArrived(e: TokenEvent)
      modifies this`enumerating, this`again, this`chooser, this`stop
      ensures View() == TokenStep(old(View()), e)
    {
      hide Updated, Reading, Removes;
      if answer.Some? {
        return;
      }
      if consent.completed {
        if consent.chosen.Some? && Removes(e, consent.chosen.value) && !stop.cancelled {
          stop := stop.(code := TokenRemoved, cancelled := true);
        } else if consent.chosen.Some? {
          again := true;
        }
        return;
      }
      if chooser.None? && !enumerating {
        return;
      }
      if !e.added && chooser.Some? {
        chooser := Some(Updated(chooser.value, []));
      } else if e.added && chooser.Some? {
        chooser := Some(Reading(chooser.value, true));
      }
      if enumerating {
        again := true;
      } else {
        StartEnumeration();
      }
    }

    /** Detaches the queue, so that only what was there before is handled. */
    method DispatchPending()
      modifies this`queue, this`enumerating, this`again, this`chooser, this`stop
      ensures View() == Drain(old(View()))
    {
      hide TokenStep;
      var pending := queue;
      queue := [];
      assert View() == old(View()).(queue := []);
      for i := 0 to |pending|
        invariant TokenSteps(View(), pending[i..]) == Drain(old(View()))
      {
        assert pending[i..][0] == pending[i] && pending[i..][1..] == pending[i + 1..];
        TokenEventArrived(pending[i]);
      }
    }

    method RecordConsent(chosen: Option<Entry>, error: Code)
      modifies this`chooser, this`consent
      ensures View() == Recorded(old(View()), chosen, error)
    {
      chooser := None;
      if !consent.completed {
        consent := Consent(true, error, chosen);
      }
    }

    method AcceptChoice(chosen: Option<Entry>, error: Code)
      modifies this`answer, this`granted, this`trace
      ensures View() == Accept(old(View()), chosen, error)
    {
      hide Complete, Finish;
      // A running enumeration keeps the transaction until its callback.
      if enumerating {
        return;
      }
      if error != Fine {
        CompleteRequest(error);
      } else if stop.code != Fine {
        CompleteRequest(stop.code);
      } else if chosen.None? || stop.cancelled {
        CompleteRequest(Cancelled);
      } else {
        FinishAcquire(chosen.value);
      }
    }

    method OnChooserDone(chosen: Option<Entry>, error: Code)
      modifies this
      ensures View() == ChooserDone(old(View()), chosen, error)
    {
      hide Recorded, Drain, Accept, View;
      RecordConsent(chosen, error);
      DispatchPending();
      AcceptChoice(chosen, error);
    }

    method FindSame(chosen: Candidate, listing: seq<Entry>) returns (found: Option<Entry>)
      ensures found == FirstSame(chosen, listing)
    {
      for i := 0 to |listing|
        invariant FirstSame(chosen, listing) == FirstSame(chosen, listing[i..])
      {
        if SameCandidate(chosen, listing[i].candidate) {
          return Some(listing[i]);
        }
        assert listing[i..][1..] == listing[i + 1..];
      }
      found := None;
    }

    method RefreshConsent(listing: Listing)
      modifies this
      ensures View() == Refreshed(old(View()), listing)
    {
      assert View().consent == consent && View().stop == stop && View().again == again;
      hide ChooserDone, Complete, Enumerate, FirstSame, Apply, View;
      if stop.code != Fine || consent.chosen.None? || stop.cancelled {
        OnChooserDone(consent.chosen, consent.error);
        return;
      }
      if listing.NotListed? {
        CompleteRequest(DeviceError);
        return;
      }
      if again {
        StartEnumeration();
        return;
      }
      var matching := ApplyFilter(filter, listing.entries);
      var found := FindSame(consent.chosen.value.candidate, matching);
      if found.Some? {
        OnChooserDone(found, consent.error);
      } else {
        CompleteRequest(TokenRemoved);
      }
    }

    method CancelWork()
      modifies this`stop, this`chooser
      ensures View() == Stopped(old(View()))
    {
      if stop.cancelled {
        return;
      }
      stop := stop.(cancelled := true);
      if chooser.Some? {
        chooser := Some(chooser.value.(cancelIdle := true));
      }
    }

    method NothingWasListed(cancelled: bool)
      modifies this`stop, this`chooser, this`answer, this`trace
      ensures View() == NothingListed(old(View()), cancelled)
    {
      hide Stopped, Complete;
      if chooser.Some? {
        if !cancelled {
          stop := stop.(code := DeviceError);
        }
        CancelWork();
      } else if !cancelled {
        CompleteRequest(DeviceError);
      } else if stop.code != Fine {
        CompleteRequest(stop.code);
      } else {
        CompleteRequest(Cancelled);
      }
    }

    method ShowChooser(matching: seq<Entry>)
      modifies this`chooser
      ensures View() == ShowOrUpdate(old(View()), matching)
    {
      hide Updated;
      if chooser.Some? {
        chooser := Some(Updated(chooser.value, matching));
      } else {
        chooser := Some(Opened(stop.cancelled, matching));
      }
    }

    method AfterEnumeration(listing: Listing)
      modifies this
      ensures View() == Returned(old(View()), listing)
    {
      assert View().stop == stop && View().chooser == chooser && View().consent == consent;
      assert View().filter == filter && View().forbidden == forbidden;
      assert View().available == available && View().again == again;
      hide Complete, Refreshed, NothingListed, Enumerate, ShowOrUpdate, Apply, View;
      if stop.intent && chooser.None? {
        CompleteRequest(Cancelled);
      } else if consent.completed {
        RefreshConsent(listing);
      } else if listing.NotListed? {
        NothingWasListed(listing.cancelled);
      } else if forbidden {
        // An acquisition always needs a chooser.
        CompleteRequest(InteractionRequired);
      } else if !available {
        CompleteRequest(NoDisplay);
      } else if again {
        StartEnumeration();
      } else {
        var matching := ApplyFilter(filter, listing.entries);
        ShowChooser(matching);
      }
    }

    method OnEnumerated(listing: Listing)
      requires Valid() && enumerating
      modifies this
      ensures Valid() && View() == Enumerated(old(View()), listing)
    {
      EnumeratedGood(View(), listing);
      hide Good, Drain, Returned;
      DispatchPending();
      enumerating := false;
      AfterEnumeration(listing);
    }

    method FinishChooser(ghost named: Option<(nat, nat)>, chosen: Option<Entry>, error: Code)
      requires chooser.Some?
      modifies this
      ensures View() == ChooserFinish(old(View()), named, chosen, error)
    {
      hide ChooserDone;
      trace := trace.(named := named, views := chooser.value.views, since := queue);
      OnChooserDone(chosen, error);
    }

    method ChooseRow(revision: nat, id: nat)
      requires Valid() && chooser.Some?
      modifies this
      ensures Valid() && View() == Choose(old(View()), revision, id)
    {
      ChooseGood(View(), revision, id);
      hide Good, ChooserFinish, Find;
      if revision != chooser.value.revision || id == 0 {
        return;
      }
      var chosen := FindChoice(chooser.value.choices, id);
      if chosen.Some? {
        FinishChooser(Some((revision, id)), chosen, Fine);
      }
    }

    method DismissChooser(error: Code)
      requires Valid() && chooser.Some?
      modifies this
      ensures Valid() && View() == ChooserFinish(old(View()), None, None, error)
    {
      ChooserFinishGood(View(), None, None, error);
      hide Good, ChooserFinish;
      FinishChooser(None, None, error);
    }

    method CancelRequest(code: Code)
      requires Valid()
      modifies this
      ensures Valid() && View() == CancelledBy(old(View()), code)
    {
      CancelledByGood(View(), code);
      hide Good, Stopped;
      if answer.Some? {
        return;
      }
      if stop.code == Fine {
        stop := stop.(code := code);
      }
      CancelWork();
    }
  }
}
