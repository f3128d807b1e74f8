# Certificate portal: a model in Dafny

This project models the certificate portal backend and its PKCS#11 client module in
Dafny and proves what the step machines and codecs in them promise. Each machine is
written twice: as plain functions over a state value, from which runs are built and
about which the properties are proved, and as a class whose methods follow the C
functions field by field and are proved equal to those functions.

A step is one callback, or one stretch of code under a lock. What workers, tokens,
users, the portal and other threads answer, and the order in which they do, is left
open: it is the sequence of events of a run, so a property of every run covers every
interleaving. Fields called history (marked in the datatypes) record what has happened
and are read by no step.

| files | subject |
|---|---|
| `optional.dfy` | values that may be missing |
| `der.dfy`, `digest_info.dfy`, `sign_operation.dfy`, `sign_replies.dfy`, `ecdsa.dfy` | the encodings: DER, DigestInfo, multi-part signing input, ECDSA signatures |
| `tokens.dfy`, `token_watch.dfy`, `watch_runs.dfy` | token identity and the presence watch |
| `portal_request.dfy`, `portal_steps.dfy` | requests of the PKCS#11 module to the portal |
| `pin.dfy`, `pin_answers.dfy`, `pin_ends.dfy` | PIN prompts and their process-wide queue |
| `device.dfy`, `broker.dfy`, `broker_invariant.dfy`, `broker_results.dfy`, `broker_steps.dfy`, `broker_signs.dfy`, `broker_logins.dfy`, `broker_work.dfy`, `broker_ends.dfy`, `broker_session.dfy` | the shared login broker |
| `requests.dfy`, `requests_invariant.dfy`, `requests_results.dfy`, `requests_steps.dfy`, `requests_closing.dfy`, `requests_shutdown.dfy`, `request_coordinator.dfy` | requests, provisional grants and shutdown |
| `filter.dfy`, `filter_clauses.dfy`, `chooser.dfy`, `acquire.dfy`, `acquire_steps.dfy`, `acquire_request.dfy` | choosing a credential |
| `pkcs11_module.dfy`, `pkcs11_invariant.dfy`, `pkcs11_results.dfy`, `pkcs11_steps.dfy`, `pkcs11_calls.dfy` | the PKCS#11 module's shared state |

What each event of a run does is also said outright, on the fields of the state and
without the functions that decide it: in the files named `*_steps.dfy` and in
`pin_answers.dfy`, `broker_signs.dfy`, `broker_logins.dfy`, `requests_closing.dfy`,
`sign_replies.dfy`, `filter_clauses.dfy` and `watch_runs.dfy`.

## What the code does not do

Two promises fail on some inputs; the model keeps the code's behaviour and says exactly
when they hold.

- The ECDSA encoder writes each INTEGER's length in one byte. For a raw signature of any
  even length, its output reads back as the two halves if and only if both INTEGER
  contents are at most 127 bytes (`EcdsaSignature.RoundTripIff`); a concrete signature
  that fails is `EcdsaSignature.LongHalfFails`. Every curve the backend names fits
  (`EcdsaSignature.CurvesRoundTrip`).
- The presence watch treats its tokens independently if and only if its first listing
  names each presence class once (`TokenWatch.IndependentIff`); a class listed twice is
  reported gone twice (`TokenWatch.DuplicateReportsTwice`).

Token identity for rebinding a grant is not reflexive for a token without a serial
number (`Tokens.TokenIdentity`). The broker therefore reopens the device session of such
a token at every visit (`TokenDevice.OpenReplaces`), and an acquisition refuses to grant
one (`Acquisition.GrantIsConsented`).

## Model

| member | source | states |
|---|---|---|
| Der.DerRead | src/module/der.c:11-56 | The header loop accepts exactly the low-tag, definite, shortest-form encodings and returns tag, value slice and consumed length |
| Der.DerEncode | src/module/der.c:63-98 | The length bytes are counted and written most significant first, in their shortest form, before the value |
| Der.ReadEncode | src/module/der.c:11-98 | Reading an encoding followed by any bytes returns its tag, value and exact length, for every low tag and every value below 2^32 bytes |
| Der.EncodeRead | src/module/der.c:11-98 | Whatever the reader accepts re-encodes to exactly the prefix it consumed |
| Der.EncodePrefixFree | src/module/der.c:11-98 | No encoding is a prefix of a different one, so concatenations split in one way only |
| DigestInfo.FindEntry | src/module/mechanism.c:204-212 | The table search finds the hash with this object identifier, or none |
| DigestInfo.ReadAlgorithm | src/module/mechanism.c:169-233 | The AlgorithmIdentifier is accepted with NULL parameters or with none, and with nothing else |
| DigestInfo.DigestInfoParse | src/module/mechanism.c:169-233 | The nested walk returns hash and digest, or refuses, as the specification parser does |
| DigestInfo.ParseIff | src/module/mechanism.c:169-233 | For every byte string: the result is (hash, digest) if and only if the string is the DigestInfo of that hash and digest, with NULL or absent parameters |
| DigestInfo.PrefixIsStructure | src/broker/mechanism.c:12-25 | The backend's literal prefixes, followed by a digest, are the standard's structure with NULL parameters (section 9.2 of RFC 8017) |
| DigestInfo.BackendRestores | src/broker/mechanism.c:501-535 | Taking a DigestInfo apart in the module and rebuilding it in the backend gives it back, normalised to NULL parameters |
| SignOperation.Operation.Init | src/module/module.c:1075-1145 | An active operation has a digest or a buffer, never both and never neither |
| SignOperation.Operation.FeedBytes | src/module/module.c:1147-1169 | Input is appended while it fits the limit, without overflow, and refused otherwise |
| SignOperation.Operation.Update | src/module/module.c:1381-1410 | A refused part ends the operation, an accepted one keeps it |
| SignOperation.Operation.SignFinal | src/module/module.c:1412-1443 | A size query or a short buffer keeps the operation; otherwise the request is sent and the operation ends |
| SignOperation.Operation.SignAll | src/module/module.c:1325-1379 | One-part signing with the same treatment of size queries |
| SignOperation.RunCollects | src/module/module.c:1147-1169 | After any split of the input, size queries in between, the operation holds exactly the bytes fed, or is gone once they do not fit |
| SignOperation.SplitIndependence | src/module/module.c:1283-1443 | C_Sign and C_SignUpdate/C_SignFinal send the same request, fixed by the whole input |
| SignOperation.OversizeNeverSubmits | src/module/module.c:1147-1196 | An input over the limit is never sent, whichever call completes it |
| SignOperation.RsaPkcsEndToEnd | src/module/module.c:1171-1223 | With CKM_RSA_PKCS, completed by C_Sign or by C_SignUpdate and C_SignFinal after any split, a request is sent if and only if the input is a DigestInfo, and what the backend signs is that input byte for byte, or its form with NULL parameters |
| SignReplies.HashingSubmits | src/module/module.c:1171-1223 | A hashing mechanism sends the digest of the whole input under its own hash, completed either way and after any split |
| SignReplies.EcdsaInfers | src/module/mechanism.c:133-142 | CKM_ECDSA sends (h, data) if and only if data is the whole input and has the length of h, and refuses the length if and only if no hash has it |
| SignReplies.PssNeedsItsLength | src/module/module.c:1171-1205 | CKM_RSA_PKCS_PSS sends the whole input under its parameters' hash if and only if it has that hash's length |
| SignReplies.Pkcs1Unwraps | src/module/module.c:1171-1205 | CKM_RSA_PKCS sends (h, digest) if and only if the input is the DigestInfo of the two; every other input is refused, 36 bytes with a code of their own |
| SignReplies.LimitIs512 | src/module/module.c:1147-1169 | The call that takes an input that is not hashed over 512 bytes is refused for the length and ends the operation |
| SignReplies.CallsAnswered | src/module/module.c:1283-1443 | A size query answers with the size and keeps the operation, a part is taken silently, a missing address ends it, and without an operation every call says so |
| SignReplies.KeyHasRoom | src/broker/mechanism.c:501-535 | The backend takes a digest for PKCS #1 if and only if the key has room for its DigestInfo and eleven bytes (section 9.2 of RFC 8017) |
| EcdsaSignature.AppendDerInteger | src/broker/mechanism.c:538-561 | Leading zeros go, a zero byte is put back before a set high bit, the length is one byte |
| EcdsaSignature.EcdsaRawToDer | src/broker/mechanism.c:563-608 | Empty and odd input is refused; otherwise a SEQUENCE of the two INTEGERs |
| EcdsaSignature.ContentOfHalf | src/broker/mechanism.c:538-561 | Each INTEGER content is minimal, has the big-endian value of its half, and left-pads back to it (section 8.3 of ITU-T X.690) |
| EcdsaSignature.RoundTripIff | src/broker/mechanism.c:563-608 | For every even, non-empty raw signature: the encoding reads back as the halves if and only if both contents fit one length byte |
| EcdsaSignature.CurvesRoundTrip | src/broker/mechanism.c:563-608 | Halves of 1 to 126 bytes always read back (section 2.2.3 of RFC 3279) |
| EcdsaSignature.LongHalfFails | src/broker/mechanism.c:538-561 | A 128-byte half is encoded so that it does not read back |
| Tokens.PresenceIsKey | src/tokens/discovery.c:87-101 | Presence is an equivalence whose classes are stable attributes, or a position for tokens without a serial |
| Tokens.TokenIdentity | src/tokens/discovery.c:73-84 | Identity is symmetric and transitive, and reflexive exactly for tokens with a serial |
| Tokens.CandidateIdentity | src/tokens/discovery.c:125-131 | The same for credentials, which also need a key identifier |
| TokenWatch.ReportsAlternate | src/tokens/discovery.c:1279-1349 | The reference debouncer's additions and removals alternate |
| TokenWatch.Watcher.Learn | src/tokens/discovery.c:1257-1277 | Tokens not yet watched are added once, as absent |
| TokenWatch.Watcher.CountObservations | src/tokens/discovery.c:1279-1349 | Contrary observations are counted, agreeing ones reset the count |
| TokenWatch.Watcher.EmitRemovals | src/tokens/discovery.c:1279-1349 | Every present entry contradicted twice is reported gone, in list order |
| TokenWatch.Watcher.EmitAdditions | src/tokens/discovery.c:1279-1349 | Every absent entry contradicted twice is reported, and entries neither present nor seen leave the list |
| TokenWatch.Watcher.PollOnce | src/tokens/discovery.c:1279-1349 | One poll over the shared list does what the four passes specify |
| TokenWatch.PollRefines | src/tokens/discovery.c:1279-1349 | One poll advances every class as its own debouncer would, reports exactly what that debouncer reports, and puts removals before additions |
| TokenWatch.RunFrom | src/tokens/discovery.c:1279-1349 | Over any sequence of observations the events of a class are its debouncer's reports |
| TokenWatch.IndependentIff | src/tokens/discovery.c:1279-1349 | The watch is a family of independent debouncers if and only if the first listing names each class once |
| TokenWatch.DuplicateReportsTwice | src/tokens/discovery.c:1279-1349 | A class listed twice at first is reported gone twice |
| TokenWatchRuns.TwiceRunning | src/tokens/discovery.c:1279-1349 | A poll reports a class if and only if it sees it as the poll before did and that is not what was last seen twice running, or listed at first |
| PortalRequests.PortalClient.RequestComplete | src/module/portal.c:290-326 | Completion happens once, takes the request off the live list and sends the Close that is then due |
| PortalRequests.PortalClient.OnResponse | src/module/portal.c:328-340 | A Response completes the request and forestalls every Close |
| PortalRequests.PortalClient.OnTimeout | src/module/portal.c:354-364 | A timeout fails the request |
| PortalRequests.PortalClient.OnMethodReturned | src/module/portal.c:379-420 | An early reply redirects the subscription, a late one sends the Close that was waiting for its path, an error fails |
| PortalRequests.PortalClient.RequestStart | src/module/portal.c:422-466 | A request is refused when the client is cancelled or its owner generation is stale |
| PortalRequests.PortalClient.CancelRequests | src/module/portal.c:468-486 | Every live request is failed while the list shrinks under the loop |
| PortalRequests.PortalClient.OwnerChanged | src/module/portal.c:187-218 | A change of owner advances the generation and fails every live request; the same owner changes nothing |
| PortalRequests.ClosedOnce | src/module/portal.c:278-420 | In every order of reply, Response, timeout, cancellation and owner change: one completion, no Close after a Response, and otherwise exactly one Close to the path the method named |
| PortalRequests.EveryLiveRequestEnds | src/module/portal.c:187-218 | Cancellation and a change of owner end every request that is still open |
| PortalRequests.StopsDrained | src/module/portal.c:818-872 | The client's loop stops only with no method callback outstanding, unless the grace period ran out twice; once is not enough |
| PortalRequestSteps.StartSends | src/module/portal.c:422-466 | A request is sent if and only if nothing is cancelled, the portal is there and its generation is the request's; otherwise it fails on the spot, with the reason |
| PortalRequestSteps.SignalEnds | src/module/portal.c:328-364 | A Response the request listens to ends it without a Close, an armed timer fails it, and any other signal or timer changes nothing |
| PortalRequestSteps.ReplyArrives | src/module/portal.c:379-420 | A returned path redirects an unfinished request, and is closed if the request has ended without a Response and has not closed it yet |
| PortalRequestSteps.ErrorArrives | src/module/portal.c:379-420 | A failed method fails an unfinished request, and closes nothing if the portal can have no such request |
| PortalRequestSteps.EveryoneFails | src/module/portal.c:187-218 | Cancellation and a new owner fail exactly the requests under way, each with its Close, and the same owner again changes nothing |
| PortalRequestSteps.DrainsAndMakes | src/module/portal.c:818-872 | Draining stops at once with nothing outstanding, and otherwise at the second end of a grace period |
| PinPrompts.PinQueue.AnswerPrompt | src/core/pin.c:134-231 | An answer during a worker is deferred, a second one ignored, otherwise the prompt is finished |
| PinPrompts.PinQueue.FinishPrompt | src/core/pin.c:134-231 | Finishing frees the screen, starts the next queued prompt, and calls the owner last |
| PinPrompts.PinQueue.StartPrompt | src/core/pin.c:633-654 | A prompt becomes active and is cancelled, refreshed or shown; the recursion through cancelled prompts ends |
| PinPrompts.PinQueue.OnLoginDone | src/core/pin.c:367-461 | A deferred outcome wins; success answers Ok; a wrong PIN may be tried again up to the cap |
| PinPrompts.PinQueue.OnRefreshDone | src/core/pin.c:612-631 | A deferred outcome wins, then cancellation, then the prompt is shown |
| PinPrompts.PinQueue.OnLoginTimeout | src/core/pin.c:463-475 | A timeout answers only while a login is in flight |
| PinPrompts.PinQueue.OnCancelledIdle | src/core/pin.c:564-571 | Cancellation becomes an answer on the coordinator |
| PinPrompts.PinQueue.OnWarningReply | src/core/pin.c:345-365 | The warning of a final try is accepted, and the login submitted, or the prompt is cancelled |
| PinPrompts.PinQueue.OnReadyReply | src/core/ui.c:265-317 | A protected prompt submits once, when the desktop is ready |
| PinPrompts.PinQueue.OnSubmitReply | src/core/ui.c:265-317 | A reply counts only for a ready, idle, unfinished prompt |
| PinPrompts.PinQueue.LoginFull | src/core/pin.c:656-710 | A new prompt is answered at once without a display, queued behind the active one, or started |
| PinPrompts.StepConsistent | src/core/pin.c:134-231 | Every callback keeps the queue and every prompt in order |
| PinPrompts.AnsweredOnce | src/core/pin.c:134-231 | In every run the owner hears of one outcome, never while a worker is in flight, the first deferred one if any, and then the request to undo exactly if a login succeeded, the outcome is not Ok and the owner takes such requests |
| PinPrompts.OkIsEarned | src/core/pin.c:367-461 | In every run a finished prompt's outcome is Ok if and only if its login succeeded and no outcome had been deferred, and no login is tried after one that succeeded |
| PinPrompts.AttemptsBounded | src/core/pin.c:511-562 | At most 3 logins, at most 1 on the protected path, and on a final try none without an accepted warning |
| PinPrompts.OneAtATime | src/core/pin.c:633-710 | Every unfinished prompt is exactly once active or queued, an idle process has an empty queue, and activation is in order of arrival |
| PinAnswers.LoginAnswered | src/core/pin.c:367-461 | In every run, a login that returns with nothing put off leaves its prompt open for another try if and only if the PIN was wrong, the token is not locked, it has no keypad of its own and fewer than 3 tries were made; otherwise the prompt ends with the outcome of that answer |
| PinAnswers.RefreshAnswered | src/core/pin.c:612-631 | A refresh that returns ends the prompt with what was put off, or with its cancellation, or as locked, and else shows it |
| PinAnswers.EndDemanded | src/core/pin.c:463-571 | A window closed, a cancellation heard and a login timed out each end the prompt with an outcome of their own, or are kept for later while a worker runs |
| PinAnswers.EntryAnswered | src/core/ui.c:265-317 | An entry sends a login off if and only if the prompt is ready, nothing is under way or put off, and there is a PIN or a keypad |
| PinAnswers.ReadyAnswered | src/core/ui.c:265-317 | A prompt becomes ready once, unless cancelled, and with a keypad that sends the login off |
| PinAnswers.WarningAnswered | src/core/pin.c:345-365 | The warning of a last try, taken, sends the login off; refused, it ends the prompt |
| PinAnswers.NewAnswered | src/core/pin.c:656-710 | A new prompt is over without a display, last in line behind an active one, and otherwise the line moves on to it |
| PinAnswers.CancellationNoted | src/core/pin.c:564-571 | A cancellation is noted at once and heard later, if the prompt is not over |
| PinPromptsEnd.EveryPromptEnds | src/core/pin.c:134-231 | From every run, at most two replies of workers or the interface for each unfinished prompt finish every prompt, with an empty queue and each owner called once, and once more at most to undo a login |
| TokenDevice.CertificateDevice.Open | src/broker/device.c:40-67 | A bound session is refreshed; another is closed before a new one is opened |
| TokenDevice.CertificateDevice.RefreshLogin | src/broker/device.c:69-99 | The login state is re-read, a lost login forgets the key, a login looks for it |
| TokenDevice.CertificateDevice.Login | src/broker/device.c:101-136 | C_Login's answer becomes the login state and the key is looked for |
| TokenDevice.CertificateDevice.Close | src/broker/device.c:255-272 | The session is given back once and nothing of it stays |
| TokenDevice.DeviceSound | src/broker/device.c:40-136 | Every operation keeps at most the newest handle open and gives each older one back once, in order |
| TokenDevice.CloseReleasesAll | src/broker/device.c:255-272 | After closing, every handle ever given out has been given back |
| TokenDevice.OpenReplaces | src/broker/device.c:30-67 | A session survives opening if and only if the credential is recognised; otherwise it is closed first |
| BrokerSession.LoginSession.PerformOperation | src/broker/operations.c:820-933 | An operation that is not admitted is answered at once; an admitted one is charged and opened |
| BrokerSession.LoginSession.OpenTaskDone | src/broker/operations.c:731-809 | A returned open fails, joins the login in progress, reopens on a stale snapshot, starts a login or runs |
| BrokerSession.LoginSession.AttachWaiter | src/broker/operations.c:731-809 | Joining a login notes whether it is already being cancelled |
| BrokerSession.LoginSession.BeginInteraction | src/broker/operations.c:731-809 | A new login has one waiter and its own cancellable, and ends at once without a display |
| BrokerSession.LoginSession.SignTaskDone | src/broker/operations.c:435-497 | A returned signing answers, reopens once on unsettled state, or applies the context login's outcome |
| BrokerSession.LoginSession.ApplyLoginOutcome | src/broker/operations.c:507-569 | A waiter's own cancellation comes before the shared outcome; a removed token closes the session |
| BrokerSession.LoginSession.FinishInteraction | src/broker/operations.c:587-618 | The loop over the stolen list resumes each waiter, in order, in the state its predecessors left |
| BrokerSession.LoginSession.OnPinDone | src/broker/operations.c:620-641 | A login that is thrown away is released before anyone is resumed |
| BrokerSession.LoginSession.WaiterCancelledIdle | src/broker/operations.c:643-674 | A cancelled waiter leaves the list and is answered; the last one closes the window |
| BrokerSession.LoginSession.OpenWorkerThread | src/broker/operations.c:693-729 | The open worker authorises, opens the device and reports whether a login is needed |
| BrokerSession.LoginSession.LoginWorkerThread | src/broker/operations.c:184-215 | The login worker notes the session it logged in, and only if it called C_Login itself |
| BrokerSession.LoginSession.SignWorkerThread | src/broker/operations.c:352-430 | The sign worker re-checks authorisation and login state under the lock before submitting |
| BrokerSession.LoginSession.ContextPinDone | src/broker/operations.c:290-332 | After a context login the session must be the one that was initialised, else it is closed |
| BrokerSession.LoginSession.ReleaseWorkerThread | src/core/session.c:113-118 | The device is closed before the release is reported |
| BrokerSession.LoginSession.CloseInternal | src/core/session.c:207-244 | Closing marks the session, cancels its unanswered operations and releases the device |
| LoginBrokerInvariant.StepConsistent | src/broker/operations.c:352-933 | Every event keeps the whole invariant of operations, waiters, login and device |
| LoginBrokerResults.OnePlace | src/broker/operations.c:435-497 | In every run each unanswered operation is in exactly one of opening, waiting and signing, and `done` has been tried exactly once for each of the others |
| LoginBrokerResults.NeverStuck | src/broker/operations.c:435-818 | An operation is unanswered if and only if some worker or prompt it depends on can still report |
| LoginBrokerResults.OpensBounded | src/broker/operations.c:587-818 | An operation opens at most twice more than the logins finished since it began |
| LoginBrokerResults.LoginShape | src/broker/operations.c:587-674 | The in-progress flag, the waiter list, the cancellable and the interaction always agree; a list without waiters has its cancellable cancelled; decryptions stay within 32 |
| LoginBrokerResults.DeviceTidy | src/broker/device.c:255-272 | At most one token session is open, every other was closed exactly once, and a closed grant's session is closed or about to be |
| LoginBrokerResults.FinishIsFair | src/broker/operations.c:587-618 | When a login ends, each waiter that joined before its cancellation began gets the outcome, each later one is opened again |
| LoginBrokerResults.AbandonedReachesNobody | src/broker/operations.c:620-674 | Whoever waits for a prompt that all others had abandoned is opened again instead of being told it was cancelled |
| LoginBrokerResults.LeavingSparesOthers | src/broker/operations.c:643-674 | One waiter's cancellation removes that waiter alone, and cancels the prompt if and only if nobody is left |
| LoginBrokerResults.EndingIsFinish | src/broker/operations.c:587-641 | Waiters are resumed by the end of the login and by no other event |
| LoginBrokerResults.ThrownAwayIsClosed | src/broker/operations.c:620-641 | When a login that C_Login performed ends without success, its session has been closed before the step that resumes the waiters |
| LoginBrokerResults.NoSigningMeanwhile | src/broker/operations.c:756-774 | While a login is in progress no operation moves from opening to signing |
| LoginBrokerResults.RunsAreFair | src/broker/operations.c:587-674 | For every run and every next event: a waiter stays in the list until it leaves or the login ends, and then gets the outcome or is opened again, after a thrown-away session has been closed; meanwhile nobody moves from opening to signing, and a waiter who leaves is answered and cancels the prompt if and only if nobody is left or it was already cancelled |
| LoginBrokerSteps.RequestTaken | src/broker/operations.c:820-933 | In every run a new operation is admitted if and only if its grant is delivered, open, in time and permits it, and a decryption is within the 32; it is then charged and opened, and otherwise answered at once |
| LoginBrokerSteps.OpenerReports | src/broker/operations.c:693-729 | The open worker reports that a login is needed if and only if nobody is logged in and the token wants one or the key is not visible; it keeps a recognised token session, replaces another, and touches nothing when refused |
| LoginBrokerSteps.OpenedGoesOn | src/broker/operations.c:731-809 | An opened operation, not cancelled, in an open session in time: a login in progress takes it among its waiters; else a needed login reopens it when its snapshot is stale, prompts for it alone when there is a display and ends it when there is none; else it goes to sign, with the login untouched |
| LoginBrokerSigns.SignerReports | src/broker/operations.c:352-412 | The sign worker finds the state stale, the key missing or submits, by conditions on the token session, the login and the key alone |
| LoginBrokerSigns.ContextAnswered | src/broker/operations.c:290-332 | After the PIN of a key that asks for one, the signature is made if and only if it was taken, the operation still stands, the token session is the one it was set up on and the token signs |
| LoginBrokerSigns.SignedGoesOn | src/broker/operations.c:435-497 | A returned signing answers its cancellation first, opens once more on stale state, closes the session of a token that is gone, and succeeds if and only if the signature can be encoded |
| LoginBrokerSigns.LoginReports | src/broker/operations.c:184-215 | The login worker logs in if and only if the login is wanted, authorised and nobody is logged in, and notes the session if and only if the token accepted |
| LoginBrokerLogins.PromptAnswered | src/broker/operations.c:620-641 | A prompt's answer counts, but for an Ok nobody waits for; a performed login that is not wanted is released with nobody resumed, and every other is over: each waiter signs, opens again or fails as its own state says, and nobody else is touched unless the token is gone |
| LoginBrokerLogins.ReleaseReports | src/broker/operations.c:587-641 | The release gives the token session back, and then the login is over with the outcome it had |
| LoginBrokerLogins.CancellationHeard | src/broker/operations.c:643-691 | A cancelled waiter is answered and leaves; the prompt is given up if and only if nobody is left |
| LoginBrokerLogins.SessionEnds | src/core/session.c:207-244 | Closing cancels and answers what the session has in hand, once, and has its device released; the end of the grant's time by itself stops nobody |
| LoginBrokerWork.SuccessIsItsOwn | src/broker/operations.c:435-497 | In one step an operation is answered with success only by the return of its own signing task, with a signature that can be encoded, and never after it was cancelled: not by a shared login, another operation, a release or a closing session |
| LoginBrokerWork.WorkIsAuthorised | src/broker/operations.c:108-412 | In every run and at every next event: a token session is opened, a login gained or an operation set up on the token only with the session open and the grant in time, by a worker of an operation not cancelled or by the shared login while somebody waits; a signature is made only for an operation still authorised, in the very token session on which it was set up with a key and any login the token asks for, also after a PIN of its own |
| LoginBrokerEnds.WorkEnds | src/broker/operations.c:352-818 | After every run and any continuation without a new request: however workers, prompts and the token answer and in whatever order, at most so many of their reports can follow, and one is still to come if and only if an operation is unanswered or a worker, a prompt or a release outstanding |
| LoginBrokerEnds.AlwaysSettles | src/broker/operations.c:352-818 | From every run, reports alone lead to a state in which every operation has been answered and nothing is outstanding |
| RequestCoordinator.Coordinator.ScheduleRequest | src/core/context.c:64-71 | A context that has stopped answers at once; otherwise the start is posted |
| RequestCoordinator.Coordinator.CheckStopped | src/core/context.c:440-464 | The stop is posted only when everything counted is drained |
| RequestCoordinator.Coordinator.CompleteRequest | src/core/context.c:299-325 | The first completion wins, and an earlier cancellation decides its code |
| RequestCoordinator.Coordinator.StartRequest | src/core/context.c:326-349 | A posted start registers, validates, and completes or begins |
| RequestCoordinator.Coordinator.FindRival | src/core/acquire.c:326-355 | The loop finds another unanswered acquisition of the session if there is one |
| RequestCoordinator.Coordinator.StartAcquiring | src/core/acquire.c:326-355 | An acquisition is refused when the session has a grant or a rival |
| RequestCoordinator.Coordinator.FinishAcquisition | src/core/acquire.c:5-43 | A choice is refused or becomes a provisional grant and an answer in one step |
| RequestCoordinator.Coordinator.RollbackAcquisition | src/core/acquire.c:45-64 | The grant found is provisional, every grant field is restored, and the completion goes out again |
| RequestCoordinator.Coordinator.DeliverCompletion | src/core/context.c:266-298 | A cancellation mark overrides the result; a grant with an error goes back first; otherwise the caller is called and the grant becomes usable |
| RequestCoordinator.Coordinator.AckCompletion | src/core/context.c:251-258 | The acknowledged request leaves the list |
| RequestCoordinator.Coordinator.CancelRequest | src/core/context.c:371-384 | The mark is set on the desktop at once, the rest is posted |
| RequestCoordinator.Coordinator.CloseInternal | src/core/session.c:207-244 | Closing marks every registered request of the session, once |
| RequestCoordinator.Coordinator.InvalidateInternal | src/core/session.c:265-295 | Invalidation marks with its own reason before it closes |
| RequestCoordinator.Coordinator.OwnerGenerationChanged | src/core/context.c:390-418 | Requests and sessions of another owner are cancelled and closed |
| RequestCoordinator.Coordinator.ShutdownBegins | src/core/context.c:484-511 | Every request is cancelled and every session invalidated |
| RequestInvariant.RivalIff | src/core/acquire.c:326-355 | The search for a rival finds one if and only if the session is being acquired |
| RequestInvariant.StepConsistent | src/core/context.c:38-519 | Every function of either thread keeps requests, sessions and counters in order |
| RequestResults.DoneOnce | src/core/context.c:251-325 | Of every request exactly one thing is still to come or has happened, the callback comes once, and until then something can carry it on |
| RequestResults.GrantTransactional | src/core/context.c:266-298 | An acquisition delivers success if and only if its grant stays; otherwise all grant fields are back before the callback; a rollback always finds its own provisional grant |
| RequestResults.NothingOnProvisionalGrant | src/broker/operations.c:832-838 | A grant is provisional exactly until its acquisition's callback, and an operation may start on an open session if and only if that callback has been called with success |
| RequestResults.OneAcquisition | src/core/acquire.c:326-355 | A session has at most one live acquisition and none while it holds a grant |
| RequestResults.StopsDrained | src/core/context.c:429-464 | The stop is reported at most once, and only with every accepted request called back and acknowledged and every counter at zero |
| RequestShutdown.ShutdownCompletes | src/core/context.c:440-519 | From every state in which shutdown has been asked for, whatever is posted, running or held, events already under way lead to the report that the context has stopped, with every caller called exactly once and nothing new asked for |
| RequestResults.MarkWins | src/core/context.c:266-298 | A request marked cancelled before its callback is never answered with success, whatever happens after |
| RequestSteps.StartAnswered | src/core/acquire.c:326-355 | A posted start goes to work if and only if nothing stops, the request is neither marked nor cancelled and is valid, and an acquisition finds its session neither granted nor being acquired; otherwise it is answered with the first reason |
| RequestSteps.AnswerCounts | src/core/context.c:299-325 | A live request's answer is kept unless a cancellation came first, and its session is not being acquired any more |
| RequestSteps.ChoiceCounts | src/core/acquire.c:5-43 | A choice becomes a provisional grant with exactly these fields if and only if the request is not marked, the session is open and the token can be found again; otherwise it is refused with the first reason |
| RequestSteps.CompletionDelivered | src/core/context.c:266-298 | A mark replaces the result; a grant with an error goes back with nobody called; else the caller is called, the grant is usable and the coordinator told |
| RequestSteps.RollbackAndAck | src/core/acquire.c:45-64 | A rollback leaves nothing of the grant and sends the completion out again; an acknowledged request leaves the list |
| RequestSteps.CancelReaches | src/core/context.c:355-388 | Cancelling marks at once, keeps the first mark, and reaches a request that has not been answered |
| RequestSteps.RequestMade | src/core/context.c:64-71 | A new request is posted, and in a context that has stopped it is answered at once |
| RequestSteps.StopIsReported | src/core/context.c:440-464 | The stop is reported by the first function of the coordinator that ends with shutdown begun and nothing registered, posted, held or to release, and by no other |
| RequestSteps.RequestsPosted | src/core/session.c:328-463 | A close is posted while the session is open, shutdown once; a session is made unless it is known, the context stops or the owner has changed |
| RequestClosing.CloseCloses | src/core/session.c:207-244 | A posted close marks exactly the session's registered requests, keeping earlier reasons, and closes it, once |
| RequestClosing.InvalidationCloses | src/core/session.c:265-295 | A token gone and a grant expired do the same with a reason of their own |
| RequestClosing.OwnerChanges | src/core/context.c:390-418 | In every run a change of owner marks a registered request, over earlier reasons, if and only if its number - its session's if it has one, else its own - is not the new one, changes no other request, and closes exactly the listed sessions of another number |
| RequestClosing.ShutdownReaches | src/core/context.c:484-511 | In every run shutdown marks every registered request, over earlier reasons, and closes every listed session that is open and not being invalidated |
| RequestClosing.OwnerChangeReachesAll | src/core/context.c:390-418 | In any state a change of owner marks exactly the registered requests whose written-out number differs and closes exactly the listed sessions whose number differs; shutdown marks every registered request |
| CandidateFilter.IssuerMatches | src/tokens/filter.c:144-165 | The loop finds the certificate's issuer among the wanted ones, and an empty list wants none |
| CandidateFilter.KeyAlgorithmMatches | src/tokens/filter.c:167-193 | A key type, a mechanism or the beginning of a TLS scheme's name, without regard to case, fits |
| CandidateFilter.FilterMatches | src/tokens/filter.c:195-240 | Every clause is asked, and an explicit key usage is not met by a certificate that states none |
| CandidateFilter.PurposeTable | src/tokens/filter.c:80-136 | For every certificate and purpose: decryption is permitted for e-mail alone, SSH asks the key alone, every other purpose asks the key, its usage and one of the purpose's extended usages |
| CandidateFilter.ClausesNarrow | src/tokens/filter.c:195-240 | A filter that asks for more offers no candidate that the other did not |
| CandidateFilter.ApplyFilter | src/tokens/filter.c:242-270 | The two growing arrays end as the matching candidates, valid ones first |
| CandidateFilter.FilterKeepsMatches | src/tokens/filter.c:242-270 | Exactly the matching candidates are kept, each as often as it was listed, and none that is not valid now comes before one that is |
| FilterClauses.MatchesIff | src/tokens/filter.c:195-240 | For every filter and candidate: it is offered if and only if each clause, written out in lower-cased text and object identifiers, is met |
| FilterClauses.OrderIsKept | src/tokens/filter.c:242-270 | Candidates that are both valid now, or both not, keep the order in which they were listed |
| CandidateChooser.ReplaceRows | src/core/chooser.c:264-328 | The nested search gives each row its earlier identifier or the next new one |
| CandidateChooser.FindChoice | src/core/chooser.c:170-193 | The row with this identifier, or none |
| CandidateChooser.RowsKeepIdentity | src/core/chooser.c:264-328 | A row has the identifier of an earlier row if and only if the two show the same credential, and no identifier stands for two rows |
| CandidateChooser.OneCredentialPerId | src/core/chooser.c:264-353 | Over any sequence of changes, one identifier in two revisions, however far apart, means the same credential |
| CandidateChooser.RevisionsAreFinal | src/core/chooser.c:330-353 | Every change is a new revision and leaves what earlier ones showed as it was |
| CandidateChooser.ConsentNamesRevision | src/core/chooser.c:170-193 | A consent counts if and only if it names the revision on show and a row of it |
| AcquireRequest.Transaction.TokenEventArrived | src/core/acquire.c:356-390 | A removal empties the list on show or cancels the consent it hits; other events ask for another enumeration |
| AcquireRequest.Transaction.DispatchPending | src/tokens/discovery.c:1170-1190 | The detached prefix of the queue is handled in order, and nothing queued meanwhile |
| AcquireRequest.Transaction.OnChooserDone | src/core/acquire.c:76-111 | Consent is recorded before the drain, and accepted only afterwards and with no worker out |
| AcquireRequest.Transaction.OnEnumerated | src/core/acquire.c:115-240 | The drain comes first; then the listing is shown, matched against the consent, asked for again, or given up |
| AcquireRequest.Transaction.FinishAcquire | src/core/acquire.c:5-43 | A marked request, a closed session and a token without a serial are refused |
| AcquireRequest.Transaction.ChooseRow | src/core/chooser.c:170-193 | A reply to another revision or to an unknown row is ignored |
| AcquireRequest.Transaction.CancelRequest | src/core/context.c:355-370 | The first reason is kept and the chooser is asked to close |
| Acquisition.StepGood | src/core/acquire.c:76-390 | Every event keeps the acquisition's invariant |
| Acquisition.AnsweredWhenAlone | src/core/acquire.c:76-248 | An acquisition is answered once, and it is answered if and only if its enumeration has returned and its chooser is gone |
| Acquisition.GrantIsConsented | src/core/acquire.c:76-170 | A granted candidate passes the filter, has a serial, is the same token, certificate and key as the row the consent named in the revision it named, and no removal of its token was queued from the consent to the acceptance |
| Acquisition.RemovalBeatsAcceptance | src/core/acquire.c:76-111 | Of an entry granted in a step, no event queued before the step was a removal of its token |
| AcquisitionSteps.EventsHandled | src/core/acquire.c:356-390 | After consent the queue cancels with TokenRemoved if and only if it holds a removal of the chosen token and nothing cancelled before, and every other event only asks for another enumeration; before consent a removal empties the list, an insertion marks it, and the tokens are listed again |
| AcquisitionSteps.ConsentAnswered | src/core/acquire.c:76-111 | A consent that names a row on show is recorded; with no worker out it is answered, and granted if and only if no queued removal, cancellation, mark or close stands against it and the token has a serial |
| AcquisitionSteps.RefusalAnswered | src/core/acquire.c:76-111 | A chooser that was closed or that failed ends the acquisition without a choice, as the first reason says |
| AcquisitionSteps.ListingAnswered | src/core/acquire.c:115-240 | A returned enumeration, case by case on the fields: answered, repeated, shown, or after consent granted if and only if the fresh listing offers the chosen credential |
| AcquisitionSteps.StopsRecorded | src/core/context.c:355-370 | A cancellation keeps the first reason and asks the chooser to close; a mark and a close are recorded |
| PortalModuleCalls.CryptokiModule.ReleaseGrant | src/module/module.c:194-202 | The generation advances, a grant the portal has not ended is given back, and every operation is reset |
| PortalModuleCalls.CryptokiModule.GrantStillGood | src/module/module.c:204-221 | The end of the grant takes every session with it |
| PortalModuleCalls.CryptokiModule.SessionRevalidate | src/module/module.c:162-175 | After a wait the session must be of this life of the module and carry the same serial |
| PortalModuleCalls.CryptokiModule.EnsureGrant | src/module/module.c:237-324 | A search uses the grant in force, does without, or starts the one acquisition |
| PortalModuleCalls.CryptokiModule.FindObjectsInit | src/module/module.c:891-957 | A search is refused when one is active, waits for a running acquisition, or goes on |
| PortalModuleCalls.CryptokiModule.FindObjectsResumed | src/module/module.c:891-957 | A woken search checks everything again |
| PortalModuleCalls.CryptokiModule.AcquisitionDone | src/module/module.c:237-324 | A grant that arrives is installed or given back on the spot |
| PortalModuleCalls.CryptokiModule.FinishFinalize | src/module/module.c:405-442 | Finalization completes with nobody acquiring, and leaves nothing |
| PortalModuleCalls.CryptokiModule.OpenCryptokiSession | src/module/module.c:731-773 | Sessions of an ended grant go first; the new one has a serial never used before |
| PortalModuleCalls.CryptokiModule.CloseAllSessions | src/module/module.c:795-809 | Every session goes and the grant is released |
| PortalModuleCalls.CryptokiModule.LogOut | src/module/module.c:868-889 | Logging out releases the grant and keeps the sessions |
| PortalModuleCalls.CryptokiModule.SignInitialize | src/module/module.c:1225-1281 | An operation starts only with the private key handle of the grant in force |
| PortalModuleInvariant.StepGood | src/module/module.c:113-442 | Every call keeps sessions, grant, acquisition and accounts in order |
| PortalModuleResults.NoGrantLeaks | src/module/module.c:237-324 | Every grant handed out is in force, was given back exactly once, or was ended by the portal |
| PortalModuleResults.OneAcquisition | src/module/module.c:237-324 | At most one acquisition runs, on the module's own client, which finalization cannot free before it returns; no grant in force can be displaced by it |
| PortalModuleResults.WaitersWake | src/module/module.c:237-249 | A search that waits can always go on once the acquisition has returned |
| PortalModuleResults.SessionsMatch | src/module/module.c:113-221 | An active operation belongs to the grant in force, search results to the session instance the search began with, and serials are not shared |
| PortalModuleResults.ResumedTouchesOwn | src/module/module.c:925-950 | A search resumed after the unlocked wait changes the results of its own session instance and of no other, and of none in another life of the module |
| PortalModuleResults.HandlesCoincide | src/module/objects.c:97-111 | Object handles of two generations coincide if and only if they are the same object's and the generations agree modulo 2^28 |
| PortalModuleResults.HandlesNeverReused | src/module/objects.c:97-111 | While the generation is below 2^28 a handle of an earlier grant's object is no handle of a later one's, and signing or decrypting with it changes nothing in the module beyond noticing a lost grant, across re-initialisation too |
| PortalModuleSteps.OperationStarts | src/module/module.c:1225-1281 | Signing and decrypting start if and only if the session is there and has no such operation, the grant has been ended by neither the portal nor time, the handle is that of its private key, and it is permitted |
| PortalModuleSteps.SearchStarts | src/module/module.c:891-957 | A search is refused, waits, uses the grant in force, goes without or acquires, by conditions on the module's variables |
| PortalModuleSteps.SearchGoesOn | src/module/module.c:162-324 | A search that has waited goes on the same way if its session instance is still there, and otherwise ends |
| PortalModuleSteps.AcquisitionLands | src/module/module.c:237-324 | A grant that arrives is put in force if and only if nothing was released since, the module is not going down, the session instance is there and its objects were made; otherwise it goes back to the portal |
| PortalModuleSteps.AcquisitionFails | src/module/module.c:237-324 | An acquisition that fails ends its search without a grant |
| PortalModuleSteps.SessionOpens | src/module/module.c:731-773 | A new session has the next handle, a new serial and nothing under way, after the sessions of an ended grant have gone |
| PortalModuleSteps.SessionsClose | src/module/module.c:775-809 | Closing a session removes it alone, the last one logs out, and closing all lets the grant go |
| PortalModuleSteps.LoginsComeAndGo | src/module/module.c:840-889 | Logging in is noted; logging out lets the grant go and keeps the sessions |
| PortalModuleSteps.LifeGoesOn | src/module/module.c:336-442 | The module is set up once and taken down at once, or when nobody acquires any more |

## Left out

- Token and library calls (C_Login, C_Sign, C_OpenSession, object searches, hashing, certificate parsing): their answers are parameters of the steps. That a login is shared by all sessions of a token is part of those answers.
- Parsing of the filter's options and of certificates: a filter and what a certificate says are values. Whether a certificate is valid now is a property of the listing entry.
- D-Bus names, exported objects, option parsing, the user interface and its message copies: transport, seen here as events. The desktop's interactions, deliveries and handles are one counter that blocks shutdown.
- Reference counts, locked memory, log lines and ABI size checks. Prompts, operations and requests are records in a map instead of shared heap objects, so aliasing between them is not captured.
- Real time: timeouts and expiry are events that may come at any moment their source is armed.
- Widths of counters that only grow (login generation, session serial, module lifecycle, owner generation): unbounded here. The 32-bit arithmetic of object handles is modelled.
- Device handles: C_OpenSession is taken never to return a handle value it returned before.
- The order of functions posted to a thread: any order is allowed, which covers the queues' first-in first-out order.
- Posting of session creation and of principal checks: the caller waits for both, so each is one step.
- Changes in the middle of a worker: closing a session, cancelling and expiry are not ordered by the device lock, so they may come between a worker's last check and the token's answer. A worker is one step here, and LoginBrokerWork.WorkIsAuthorised holds as of that check.
- Which of several cancellation codes an acquisition reports: Acquisition.CancelledBy keeps the first, while a change of owner and shutdown overwrite it (src/core/context.c:404, 494).
- Replies a chooser's provider makes while it is being called: the source puts them off to an idle (src/core/chooser.c:178-182), and here they are later events.
- Concurrent calls of C_Finalize, and calls that race with it in ways PKCS#11 leaves undefined.
- C_FindObjects, C_GetAttributeValue and template matching: they read what a search has found and write the caller's buffers, and are left out.
- The PIN prompt of a key that asks for authentication at every use runs in its own prompt; the broker sees its outcome, and the submission itself is one answer of the token.
- Der.DerEncode: values of 2^32 bytes and more, for which the source's header buffer has no room, are outside its precondition.
- LoginBrokerResults.OpensBounded: counts from the login generation at which the operation began, which is the number of logins the session had finished by then.
- CandidateChooser.RowsKeepIdentity: assumes that neither listing names a credential twice; CandidateChooser.OneCredentialPerId does not.
- PortalModuleResults.HandlesNeverReused: assumes the generation below 2^28; beyond that PortalModuleResults.HandlesCoincide says exactly when handles recur.
