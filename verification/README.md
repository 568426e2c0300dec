# KRAVIA Office and Authenticator: a verified model

A Dafny model of the parts of KRAVIA Office where a guarantee rests on many pieces of
code at once, with proofs of those guarantees for every input and every run.

- **Identity** (`IdentityModel`, `IdentityProtocol`, `IdentityStore` and the proof modules
  beside them). Sessions, device approvals, QR requests, activations, users and the
  security event log are tables; each request of the service is one atomic step on them,
  with the clock, the outcome of a mail and the standing of the user as inputs.
  `IdentityStore` is the imperative form, with rows fetched, fields assigned and related
  rows looped over; it is proved to end where the step functions say. The other modules
  prove the invariant (`IdentityInvariants`, `IdentitySteps`, `IdentitySafety`), the
  evidence behind every aal2 session (`IdentityEvidence`, `IdentityWitness`,
  `IdentityHistory`), what happens once only (`IdentityFollow`, `IdentityOnce`), that
  approvals and QR requests only move forward (`IdentityLifecycle`), retries of device
  completion (`IdentityRetry`) and of QR completion (`IdentityRescan`, `IdentityRescanRun`),
  and the other promises (`IdentityTheorems`). `IdentityView` defines the service a second
  time, row by row; `IdentityViewAccounts`, `IdentityViewCodes`, `IdentityViewDevices` and
  `IdentityViewProof` prove the two definitions equal, and `IdentityFailures` counts wrong
  codes with it.
- **The phone** (`AuthenticatorClient`): token rotation, sign-out and lost replies against
  the same service, with any other requests in between.
- **Money** (`ContributionSplit`, `ShareLedger`, `Collections` and their companions): the
  largest-remainder split, the share ledger with its controlled import, and the collection
  of contributions with provider webhooks. `ShareLedgerHistory` and `CollectionHistory` say
  what stands behind each posting and each payment.
- **GST** (`GstReturns`, `GstHistory`, `GstDesk`, `Gstr1`, `Gstr1Upload`): the life of a
  return working, the order of its filing, and the GSTR-1 grouping, in integer paise.
- **Period locks** (`PeriodLocks`, `PeriodHistory`): the lock table against the set of
  closed (day, domain) pairs, and what stands behind an unlock.
- **Codes** (`JsBits`, `Base32`, `Totp`): bit-level loops against RFC 4648, RFC 4226 and
  RFC 6238.
- **Structure limits** (`StructureLimits`): an explicit stack against plain recursion.

Where the source changes state in place there is a class (or a method with loops) whose
contract ties the new state to a function of the old one; what the source promises is
proved about those functions and their runs. Each service class keeps, as ghost fields,
what it was asked and went through; its `Serve` proves that this history is always a run
of the model, so that the promises about runs hold of the class itself.
`dafny verify dfyconfig.toml` checks everything.

## Assumptions

- Requests are served one at a time. The posting code of the share ledger and of the
  collections takes no row lock, so this is an assumption there.
- `_hash_token` is injective, and tokens and identifiers drawn by the service are new.
- A mail succeeds, is rejected or has an unknown outcome inside the step that sends it. The
  code commits the held session before it sends and records the outcome after.
- Standing of a user (status, control plane, roles, Play-review access), password checks,
  delegation rules and the approval of maker-checker requests are inputs of each step.
- Configured lifetimes are those the code accepts; where it raises for others, the model
  does not go on.

## What the proofs brought out

- A lost refresh reply makes the phone's next sign-out report `already_inactive` while the
  server session is ACTIVE (`AuthenticatorClient.LostReplyLooksInactive`, and a run in
  `LostReplyWitness`). The phone holds the current token exactly when the reply to the last
  rotation reached it (`CurrentExactly`).
- Completing a device approval can be retried after lost replies exactly until a granted
  request ends the approval or its session (`IdentityRetry.CompletionIsRetrySafe`).
- A return that the CA rejected can still become FILED_VERIFIED by a status check, when it
  had been uploaded before, and in no other way (`GstReturns.RejectedIsFiledExactly`,
  `FiledRejectWasUploaded`, and a run in `FiledMayBeRejected`).
- Repeated webhook event ids are harmless exactly when each repeat finds its event on
  record or its instruction lookup ambiguous; a lookup that fails on several matches is not
  recorded, and its repeat can take effect later (`CollectionRuns.RepeatsHaveNoEffectExactly`,
  and a run in `AmbiguousRepeatTakesEffect`).
- The allocation status PARTIAL is never reached: a collection instruction always asks for
  the whole amount (`CollectionRuns.CollectionIsAllOrNothing`).
- An import over a ledger that already holds shares stays within the authorised totals
  exactly when each class of the file has room for its missing rows
  (`ShareLedgerRuns.ImportFitsExactly`); it may not have (`ImportOverHoldingsMayExceed`).
- A scan of a used code sets its request to REVOKED, and the browser that lost the reply to
  its completion is then refused although its session is ACTIVE at aal2. Asking again works
  exactly when the session is ACTIVE and no trusted phone of the user has scanned the code
  a second time (`IdentityRescan.QrCompletionIsRetrySafe`, and a run in
  `IdentityRescanRun.RescanWitness`).
- The session/device re-check of an activation claim can only ever fail because trust has
  lapsed in time (`IdentityTheorems.ClaimRecheckIsLapse`).

## Model

| member | source | states |
|---|---|---|
| IdentitySafety.StepKeeps | Backend/backend/identity_auth.py:1515-3490 | Every one of the 25 modelled requests keeps the whole invariant: linked rows, one approval per session, one trusted device and one live activation per user, live activations bound, legal sessions, one open and one consumed QR per session |
| IdentitySafety.RunKeeps | Backend/backend/identity_auth.py:1515-3490 | That invariant holds in every world of every run from empty tables, for any interleaving of requests, failed mails and clock readings |
| IdentitySafety.RunEvolves | Backend/backend/identity_auth.py:1515-3490 | Between any two worlds of a run no session disappears or changes user or purpose, aal2 is never lowered, and a REVOKED session stays REVOKED at the assurance it had |
| IdentityViewProof.StepSays | Backend/backend/identity_auth.py:1515-3490 | Against a second definition of the service that goes row by row instead of request by request: every request of every kind is granted exactly on the written conditions, and each row of the five tables ends exactly as that definition says, new rows included |
| IdentityFailures.RunSays | Backend/backend/identity_auth.py:1515-3490 | The same at every step of every run |
| IdentityTheorems.Aal2IsEarned | Backend/backend/identity_auth.py:1959-3114 | An ACTIVE aal2 session was earned at earlier, granted steps of the same run (each wrote its audit entry, in the situation the entry describes), in order: an accepted factor with approval off or a trusted proof; or factor, mailbox APPROVE of that session's own request, completion; or one QR request scanned, approved by the same device trusted at both steps, completed |
| IdentityHistory.StepLogs | Backend/backend/identity_auth.py:791-812 | Each step writes at most one security event, and writes it only in the situation the event describes, so the audit log can be read backwards as history |
| IdentityHistory.Aal2HasEvidence | Backend/backend/identity_auth.py:1959-3114 | The log of the current world already contains, in order, the evidence for every ACTIVE aal2 session |
| IdentityHistory.EntryHasStep | Backend/backend/identity_auth.py:791-812 | Every log entry was written by exactly such a step of the run, with the meaning of the entry true before that step |
| IdentityTheorems.LogExtends | Backend/backend/identity_auth.py:791-812 | The event log only grows along a run, by at most one entry a step |
| IdentityTheorems.OneTrustedDevice | Backend/backend/identity_auth.py:3051-3098 | At most one trusted device per user in every world, and also in the flushed state between revoking the old devices and promoting the new one |
| IdentityTheorems.LiveActivationIsBound | Backend/backend/identity_auth.py:2110-2208 | At most one live activation per user; it names an ACTIVE aal2 activation session and an approval of the same user and session that is TRUSTED, or EXPIRED with its trust lapsed in time |
| IdentityTheorems.ClaimRecheckIsLapse | Backend/backend/identity_auth.py:2262-2292 | In every run an unexpired live activation claimed with its token by an eligible user is refused if and only if the trust of its device has lapsed in time, and accepted otherwise |
| IdentityTheorems.ActivationRotatesOnce | Backend/backend/identity_auth.py:2309-2334 | Once a claim of an activation was accepted, no later claim of it is accepted in the run, with any token |
| IdentityTheorems.AcceptedStepsIncrease | Backend/backend/identity_auth.py:1338-1352 | Between two rotations or removals of a user's factor the accepted TOTP counters strictly increase along the log, so no time step is accepted twice (RFC 6238 section 5.2) |
| IdentityTheorems.AcceptedCodesIncrease | Backend/backend/identity_auth.py:2636-2743 | Two codes accepted by the service for one user, with no granted rotation, reset or recovery of the factor between, are of different time steps, the later of a later step |
| IdentityTheorems.FailuresAreBounded | Backend/backend/identity_auth.py:2660-2706 | An ACTIVE aal1 session has failed fewer than the maximum number of codes |
| IdentityFailures.FailedCountsWrongCodes | Backend/backend/identity_auth.py:2660-2680 | In every run the failure count of an aal1 session is the number of admitted codes of an enrolled user that matched no step, given for it so far |
| IdentityFailures.WrongCodesAreBounded | Backend/backend/identity_auth.py:2660-2703 | At most the maximum of such codes is ever taken for a session, and the last of them leaves it REVOKED at aal1 for good |
| IdentityFailures.WrongCodeAnswered | Backend/backend/identity_auth.py:2660-2703 | A wrong code is answered 429 and ends the session if it is the last allowed one, and is answered 400 and leaves it ACTIVE otherwise |
| IdentityTheorems.QrRequestsAreSafe | Backend/backend/identity_auth.py:1860-2108 | Per session at most one PENDING or SCANNED request and at most one CONSUMED one, whose session is aal2; APPROVED and CONSUMED requests name a scanner device of the same user |
| IdentityTheorems.RejectedNeverReachesAal2 | Backend/backend/identity_auth.py:2042-2060 | A session rejected on the phone while ACTIVE at aal1 is REVOKED at aal1 in every later world |
| IdentityTheorems.RefreshTokenWorksOnce | Backend/backend/identity_auth.py:2514-2540 | A refresh token accepted once is answered 401 at every later refresh of the run |
| IdentityRetry.CompletionIsRetrySafe | Backend/backend/identity_auth.py:2974-3114 | In any run, after a completion was answered with a token that may have been lost, the same approval and proof presented in time are answered again if and only if no request granted in between ended the approval or its session; the reply then carries the session's current token, the session is ACTIVE at aal2 and the approval TRUSTED |
| IdentityRetry.StandsUnlessEnded | Backend/backend/identity_auth.py:2375-3490 | While its trust lasts, a completed approval stands exactly as long as no granted sign-out, revocation, password change, recovery, reset or other trusted device ends it; once fallen it never stands again |
| IdentityRetry.StepDecides | Backend/backend/identity_auth.py:1515-3490 | For each kind of request: a completed approval falls if the request is one of those and leaves approval and session status untouched if it is not |
| IdentityRescan.QrCompletionIsRetrySafe | Backend/backend/identity_auth.py:2062-2081 | In any run, after a QR completion was granted, the same request later changes nothing and is granted again if and only if the session is still ACTIVE and no trusted phone of the user scanned the code in between; the session is at aal2 either way |
| IdentityRescan.ClosedMovesExactly | Backend/backend/identity_auth.py:1959-2010 | For each kind of request: a consumed, rejected or expired QR request stays as it is, but for a scan of its code by a trusted phone of its user when the browser session no longer waits for a factor, which makes it REVOKED |
| IdentityRescan.ConsumedUntilScanned | Backend/backend/identity_auth.py:1959-2109 | Along a run a consumed QR request is CONSUMED exactly until the first such scan and REVOKED from then on, and is otherwise the same row |
| IdentityRescanRun.RescanWitness | Backend/backend/identity_auth.py:1959-2109 | A run of ten requests from empty tables: the browser completes, the phone scans the used code again, and the browser's second attempt is refused while its session is ACTIVE at aal2 |
| IdentityLifecycle.RunForward | Backend/backend/identity_auth.py:1860-3114 | Over any run approvals and QR requests only move forward: a closed approval stays as it was closed, only PENDING ones are declined, a decided QR request is never decided again, the scanning device is never replaced, users, sessions and secrets never change |
| IdentityLifecycle.StepForward | Backend/backend/identity_auth.py:1860-3114 | Every request of every kind moves the rows of the two tables forward only |
| IdentityOnce.RunOnce | Backend/backend/identity_auth.py:2311-2316 | In every world the stored counter is the last accepted one since the last rotation, claimed activations match rotations one to one, stored refresh hashes are distinct and spent tokens are gone |
| IdentityOnce.StepUsers | Backend/backend/identity_auth.py:1338-1352 | Only an accepted code, a rotation and a removal touch a user's stored counter, and each as its log entry says |
| IdentitySteps.ReplaceDevicesKeeps | Backend/backend/identity_auth.py:3038-3080 | The intermediate flush of a device replacement keeps the invariant and leaves the user without a trusted device |
| IdentitySteps.CompleteDeviceKeeps | Backend/backend/identity_auth.py:2974-3114 | Completion keeps the invariant on all of its branches, replacement of older devices included |
| IdentitySteps.VerifyEmailOtpKeeps | Backend/backend/identity_auth.py:1724-1858 | The email-code sign-in keeps the invariant, for known, Play-review and held devices and every mail outcome |
| IdentitySteps.VerifyMfaKeeps | Backend/backend/identity_auth.py:2636-2797 | TOTP verification keeps the invariant, counted failures and held browsers included |
| IdentitySteps.ClaimActivationKeeps | Backend/backend/identity_auth.py:2234-2334 | A claim keeps the invariant, whatever the re-check finds |
| IdentitySteps.CreateQrKeeps | Backend/backend/identity_auth.py:1860-1930 | A new QR request keeps the invariant: the session's open ones are withdrawn first |
| IdentitySteps.ScanQrKeeps | Backend/backend/identity_auth.py:1959-2010 | A scan keeps the invariant, stale browser sessions and lapsed requests included |
| IdentitySteps.DecideQrKeeps | Backend/backend/identity_auth.py:2012-2060 | A decision keeps the invariant; a rejection ends only a session that no activation depends on |
| IdentitySteps.CompleteQrKeeps | Backend/backend/identity_auth.py:2062-2108 | Completing a QR sign-in keeps the invariant: one consumed request per session, which is aal2 from then on |
| IdentitySteps.DecideDeviceKeeps | Backend/backend/identity_auth.py:2840-2894 | The mailbox decision keeps the invariant; a decline ends the session it holds |
| IdentitySteps.RevokeDeviceKeeps | Backend/backend/identity_auth.py:2928-2972 | Revoking a device keeps the invariant: no live activation is left on its session |
| IdentitySteps.RevokeSessionKeeps | Backend/backend/identity_auth.py:2375-2415 | Revoking another Office session keeps the invariant, since no activation depends on it |
| IdentitySteps.SignOutKeeps | Backend/backend/identity_auth.py:2542-2578 | Sign-out keeps the invariant: the session's live activations end with it |
| IdentityModel.HoldForApproval | Backend/backend/identity_auth.py:646-684 | Holding a session changes that session's row and puts one approval row, for that session and its user, and keeps the session's refresh token |
| IdentityRows.StepOnRow | Backend/backend/identity_auth.py:1515-3490 | No request but a rotation presenting the session's own secret changes a session's refresh token; expiry never moves; an established activation session is never held again |
| IdentityStore.Store.Serve | Backend/backend/identity_auth.py:1515-3490 | Whatever requests a store serves, its history is a run of the protocol that ends in its tables, so every promise above holds of it; each request keeps the invariant, loses or revives no session and never lowers aal2 |
| IdentityStore.Store.RevokeActiveSessions | Backend/backend/identity_auth.py:2492-2500 | The loop revokes exactly the user's ACTIVE sessions but the spared one |
| IdentityStore.Store.CancelLiveActivations | Backend/backend/identity_auth.py:509-530 | The loop cancels exactly the live activations that match user, session and device filters |
| IdentityStore.Store.ReplaceOtherDevices | Backend/backend/identity_auth.py:3038-3072 | The loop over replaced devices ends in the state stated for it: their approvals, their ACTIVE sessions and their live activations, nothing else |
| IdentityStore.Store.RevokePreviousDevices | Backend/backend/identity_auth.py:700-715 | The loop of the Play review device revokes previous devices and cancels their activations only |
| IdentityStore.Store.RevokeOpenQrs | Backend/backend/identity_auth.py:1881-1891 | The loop withdraws exactly the session's PENDING and SCANNED requests |
| IdentityStore.Store.KnownBrowserDevice | Backend/backend/identity_auth.py:560-578 | True exactly for a trusted, unlapsed device of the user whose proof matches; a lapsed trust is written off |
| IdentityStore.Store.HoldSession | Backend/backend/identity_auth.py:646-789 | Ends held and PENDING when the mail was sent, REVOKED with the failure recorded when it was not |
| IdentityStore.Store.VerifyEmailOtp | Backend/backend/identity_auth.py:1724-1858 | A new aal2 activation session is ACTIVE for a known device, ACTIVE with the one new trusted device for a Play reviewer, and held (or revoked when no mail went out) for any other; a lapsed trust met on the way is written off |
| IdentityStore.Store.AdmitBrowser | Backend/backend/identity_auth.py:2744-2797 | Known browsers keep their ACTIVE session, others are held for the mailbox, and the accepted step is logged with the reason |
| IdentityStore.Store.VerifyMfa | Backend/backend/identity_auth.py:2636-2797 | An accepted code claims its counter before it promotes; a counter not above the last accepted one is refused without any change; no match is counted |
| IdentityStore.Store.CreateQr | Backend/backend/identity_auth.py:1860-1930 | The session's open requests are withdrawn and one PENDING request for it is added |
| IdentityStore.Store.RequestActivation | Backend/backend/identity_auth.py:2110-2208 | All of the user's live activations are cancelled and one bound to this session and its own trusted device is added |
| IdentityStore.Store.RevokeDevice | Backend/backend/identity_auth.py:2928-2972 | The caller's own trusted device, its session and its live activations end together |
| IdentityStore.Store.CompleteDevice | Backend/backend/identity_auth.py:2974-3114 | An approved request trusts this device alone: other trusted devices, their ACTIVE sessions and live activations end first; a trusted one only draws a new refresh token |
| IdentityStore.Store.Refresh | Backend/backend/identity_auth.py:2514-2540 | The one session that holds the token gets the replacement and the token is logged as spent; an ended session answers 401 |
| IdentityStore.Store.SignOut | Backend/backend/identity_auth.py:2542-2578 | The caller's session is revoked and only its own live activations are cancelled; device trust stays |
| IdentityStore.Store.ChangePassword | Backend/backend/identity_auth.py:2417-2470 | All of the user's other ACTIVE sessions and all live activations end, the caller's session goes on |
| IdentityStore.Store.RecoverPassword | Backend/backend/identity_auth.py:2472-2512 | All of the user's ACTIVE sessions and live activations end |
| IdentityStore.Store.IssueRecovery | Backend/backend/identity_auth.py:3268-3323 | The same for another user, within the delegation rules |
| IdentityStore.Store.BreakGlass | Backend/backend/identity_auth.py:3204-3266 | The same for the founder, whose factor and accepted counter are removed as well |
| IdentityStore.Store.ResetMfa | Backend/backend/identity_auth.py:3448-3490 | The same for another user, with the factor and accepted counter removed |
| AuthenticatorClient.Phone.SignOut | Authenticator/src/activation.ts:396-442 | The outcome, the requests sent in order, and what is left in storage, for every combination of answers and of the storing callback |
| AuthenticatorClient.ReportExactly | Authenticator/src/activation.ts:396-442 | Signed out is reported exactly when a sign-out that was asked was accepted, already inactive exactly when the refresh that was asked was answered 401; the refresh is asked exactly after a 401 and the second sign-out exactly after a refresh that was stored or needed no storing |
| AuthenticatorClient.SignOutReportIsTrue | Authenticator/src/activation.ts:396-442 | A sign-out reported as done or already inactive means the server session is revoked or past its term ever after, whatever was served in between, if the phone began with the current token and nobody else presented the session's secrets before its refresh |
| AuthenticatorClient.CurrentExactly | Authenticator/src/activation.ts:379-390 | Over a whole run the phone holds the server's current token if and only if the last rotation was delivered and saved, or there was none |
| AuthenticatorClient.PhoneStaysCurrent | Authenticator/src/activation.ts:379-390 | If every reply to its rotations is delivered and saved the phone holds the server's current token in every world |
| AuthenticatorClient.CurrentUnlessLost | Authenticator/src/activation.ts:379-390 | One step, whatever the phone holds: after a rotation it is current exactly when the reply was delivered and saved, after any other step exactly when it was before |
| AuthenticatorClient.UnauthorizedExactly | Backend/backend/identity_auth.py:2514-2523 | Refresh answers the phone's own token with 401 if and only if it is not current, the session is not ACTIVE, or its term is over |
| AuthenticatorClient.UnauthorizedMeansOver | Authenticator/src/activation.ts:413-425 | With the current token a 401 means the session is over for good |
| AuthenticatorClient.AcceptedSignOutEnds | Authenticator/src/activation.ts:400-407 | An accepted sign-out ends the session for good |
| AuthenticatorClient.SessionGoesOn | Backend/backend/identity_auth.py:2514-2578 | Term and standing of a session over a run; an ended session stays ended |
| AuthenticatorClient.LostReplyLooksInactive | Authenticator/src/activation.ts:413-425 | One lost refresh reply makes the next sign-out report already inactive while the session is ACTIVE and in term |
| AuthenticatorClient.LostReplyWitness | Authenticator/src/activation.ts:413-425 | A run in which this happens: registration, a reviewer's sign-in, a refresh whose reply is lost, and a sign-out told already inactive while the session is ACTIVE and in term |
| ContributionSplit.BasisIsSplittable | Backend/backend/finance_ownership.py:101-110 | Either basis gives distinct holders with positive weights that add up to the denominator used |
| ContributionSplit.BuildFloors | Backend/backend/finance_ownership.py:508-513 | The first loop builds the floor pieces and their sum |
| ContributionSplit.Split | Backend/backend/finance_ownership.py:506-516 | The loops and the sort compute the apportionment and hand out exactly the expense; the index never wraps |
| ContributionSplit.ResidueBounds | Backend/backend/finance_ownership.py:514-516 | The residue is non-negative, below the number of holders, and every extra paisa meets a non-zero remainder |
| ContributionSplit.SplitIsExact | Backend/backend/finance_ownership.py:506-523 | Shares add up to the expense and go to exactly the weighted holders |
| ContributionSplit.SplitIsWithinQuota | Backend/backend/finance_ownership.py:508-516 | Every share is the floor of its quota, or the next paisa when the quota was cut off |
| ContributionSplit.ExtraGoesByRank | Backend/backend/finance_ownership.py:511-518 | A holder who gets one of the left-over paise has a larger remainder than one who does not, or an equal one and the identifier that comes first |
| ContributionSplit.SplitIsMonotone | Backend/backend/finance_ownership.py:508-516 | A strictly larger weight never receives less |
| ContributionSplit.SplitIgnoresOrder | Backend/backend/finance_ownership.py:508-516 | The result depends on the weights only, not on dictionary order |
| ContributionSplit.SplitIsOptimal | Backend/backend/finance_ownership.py:508-516 | No other integer shares with the same total have a smaller sum of squared deviations from the exact quotas |
| ContributionSplit.SortedIsUnique | Backend/backend/finance_ownership.py:515 | The sort key leaves one possible order |
| ShareLedgerInvariants.PostChangeKeeps | Backend/backend/finance_ownership.py:346-358 | Posting a change keeps balances non-negative, totals authorised, keys unique and the ledger accounted for; its unique key never collides |
| ShareLedgerInvariants.PostTransferKeeps | Backend/backend/finance_ownership.py:380-391 | Posting a transfer keeps all of that and every class total |
| ShareLedgerInvariants.StageChangeKeeps | Backend/backend/finance_ownership.py:332-344 | Staging a change keeps the ledger invariant |
| ShareLedgerInvariants.StageTransferKeeps | Backend/backend/finance_ownership.py:365-378 | Staging a transfer keeps the ledger invariant |
| ShareLedgerInvariants.ChangeKeyIsFree | Backend/backend/finance_ownership.py:355 | A staged change's ledger key is not in the ledger: endings of the key kinds differ and request keys are unique |
| ShareLedgerInvariants.TransferKeysAreFree | Backend/backend/finance_ownership.py:387-388 | A staged transfer's two ledger keys are not in the ledger |
| ShareLedgerRuns.RunKeeps | Backend/backend/finance_ownership.py:332-391 | The invariant holds in every run that starts empty and imports into an empty ledger or repeats the import |
| ShareLedgerRuns.BalancesStayInBounds | Backend/backend/finance_ownership.py:353-354 | No holding is ever negative and no class exceeds its authorised shares |
| ShareLedgerRuns.BalanceIsOpeningPlusPosted | Backend/backend/finance_ownership.py:204-214 | Each balance is the opening plus the effect of every POSTED request, each exactly once |
| ShareLedgerRuns.TransfersKeepTotals | Backend/backend/finance_ownership.py:386-389 | Class totals move only by posted changes and imports: through any other requests, posted transfers among them, every total stays as it was |
| ShareLedgerRuns.PostsNeverCollide | Backend/backend/finance_ownership.py:355-388 | No post of a run fails on the ledger's unique key |
| ShareLedgerRuns.LedgerOnlyGrows | Backend/backend/finance_ownership.py:355-389 | The ledger is append-only and POSTED is permanent |
| ShareLedgerRuns.ImportKeeps | Backend/backend/controlled_bootstrap.py:124-221 | An import into an empty ledger, or the same file again, keeps the invariant |
| ShareLedgerRuns.ReapplyPostsNothing | Backend/backend/controlled_bootstrap.py:188-206 | Once a file was imported, applying it again at any later point posts nothing, whatever the books held and was requested in between: every allocation is skipped and only the note of the last file changes |
| ShareLedgerRuns.FirstImportFits | Backend/backend/controlled_bootstrap.py:94-112 | Into an empty ledger a valid file issues within authorised shares and leaves no negative holding |
| ShareLedgerRuns.ImportFitsExactly | Backend/backend/controlled_bootstrap.py:188-206 | From a ledger within its authorised shares an import stays within them if and only if each class of the file has room for the rows the ledger does not hold yet |
| ShareLedgerRuns.ImportOverHoldingsMayExceed | Backend/backend/controlled_bootstrap.py:188-206 | Over a ledger that already holds shares the condition can fail: two files, imported one after the other from an empty ledger, exceed the authorised total |
| ShareLedgerHistory.PostGrantedExactly | Backend/backend/finance_ownership.py:346-391 | In every run a post goes through if and only if the request was staged, was not posted before, its approval was decided in favour, and the ledger with the rows it was staged with has no negative holding and no class over its authorised shares; it appends just these rows, and otherwise nothing changes |
| ShareLedgerHistory.PostedWasApproved | Backend/backend/finance_ownership.py:346-391 | Every posting has an earlier staging, then a favourable decision of the approval drawn there, then its post |
| ShareLedgerHistory.ApprovedExactly | Backend/backend/finance_ownership.py:346-391 | An approval is APPROVED if and only if it was decided so before |
| ShareLedgerHistory.ChangeStagedExactly | Backend/backend/finance_ownership.py:332-344 | A key staged before is found again with the same change and refused with another; a new key is taken exactly for a rightly signed change of a holder and class on record |
| ShareLedgerHistory.TransferStagedExactly | Backend/backend/finance_ownership.py:365-378 | The same of transfers, which need two holders, a positive quantity and shares that are there |
| ShareLedgerHistory.DecidedExactly | Backend/backend/finance_ownership.py:332-391 | An approval is decided exactly once: the first decision after it was drawn is taken, every other refused |
| ShareLedgerHistory.RegisteredExactly | Backend/backend/finance_ownership.py:282-331 | A class or holder is on record if and only if it was created or an imported file lists it |
| ShareLedgerHistory.CreatedExactly | Backend/backend/finance_ownership.py:282-331 | A class or holder can be created exactly when it is not on record yet |
| ShareLedgerHistory.AcceptedExactly | Backend/backend/controlled_bootstrap.py:55-116 | A file is accepted exactly when it names its company with a two-digit state code, lists at least one class and holder, none twice, each with what it needs, and allots positive shares of listed classes to listed holders within what each class is authorised for |
| ShareRegister.ValidateConfig | Backend/backend/controlled_bootstrap.py:55-116 | The file is accepted exactly when the company's fields, the classes, the holders and the allocations are as required |
| ShareRegister.ValidateClasses | Backend/backend/controlled_bootstrap.py:68-81 | Codes non-empty and unique, authorised counts non-negative, face values positive, names and evidence given |
| ShareRegister.ValidateHolders | Backend/backend/controlled_bootstrap.py:83-92 | Numbers non-empty and unique, names and evidence given; the table built holds exactly the listed numbers |
| ShareRegister.SumAllocations | Backend/backend/controlled_bootstrap.py:94-108 | Each allocation checked (known holder and class, positive quantity, date, evidence), the totals map equal to the class totals |
| ShareRegister.ValidateAllocations | Backend/backend/controlled_bootstrap.py:94-112 | Allocations fit and no class total exceeds its authorised shares |
| ShareRegister.WithinTotals | Backend/backend/controlled_bootstrap.py:110-112 | The loop over totals finds every class over its limit |
| ShareRegister.MergeClasses | Backend/backend/controlled_bootstrap.py:150-170 | Existing classes must agree in face value, count and name, missing ones are added |
| ShareRegister.MergeHolders | Backend/backend/controlled_bootstrap.py:172-186 | Existing holders must agree in name, missing ones are added |
| ShareRegister.BuildRows | Backend/backend/controlled_bootstrap.py:188-206 | The allocation loop adds one row per key the ledger does not hold, and counts both kinds |
| ShareRegister.Register.Serve | Backend/backend/finance_ownership.py:282-391 | Whatever requests a register serves, its history is a run of the ledger, so every promise above holds of it; the ledger is only appended to, no holding is negative and no class exceeds its authorised shares |
| ShareRegister.Register.ApplyConfig | Backend/backend/controlled_bootstrap.py:124-221 | All of a valid file's classes, holders and missing rows are stored together, or nothing is |
| CollectionRuns.RunKeeps | Backend/backend/finance_ownership.py:490-664 | The invariant of calls, allocations and instructions holds in every run |
| CollectionRuns.CollectionIsAllOrNothing | Backend/backend/finance_ownership.py:263-272 | An allocation has collected nothing or all of its amount, never more; COLLECTED exactly when its positive amount is in; PARTIAL never occurs |
| CollectionRuns.FundedMeansFullyCollected | Backend/backend/finance_ownership.py:236-241 | A call's allocations add up to its total; its status is the function of its allocations, and FUNDED exactly when total collected equals the total |
| CollectionRuns.FundedIsPermanent | Backend/backend/finance_ownership.py:236-241 | FUNDED is permanent and collected amounts never fall |
| CollectionRuns.RepeatsHaveNoEffectExactly | Backend/backend/finance_ownership.py:644-668 | A sequence of webhooks has the effect of the sequence with repeated event ids removed if and only if every event on record in the end was put there by its first delivery, which is so if and only if each repeat finds its event on record or its lookup ambiguous |
| CollectionRuns.AmbiguousRepeatTakesEffect | Backend/backend/finance_ownership.py:655-657 | The condition can fail: a run from empty tables, of two payouts answered with one reference, whose last webhook is a repeat that takes effect |
| CollectionHistory.CollectedRisesExactly | Backend/backend/finance_ownership.py:263-272 | In every run an allocation's collected money rises at a step if and only if it had not come in and one of its instructions succeeds there: by an approved, due sandbox execution under a mandate that allows it, or by the first delivery about it under one of the three success names; all of it comes in at once |
| CollectionHistory.ExpensePaidExactly | Backend/backend/finance_ownership.py:273-279 | An expense becomes PAID at a step if and only if a payout of its whole amount succeeds there |
| CollectionHistory.InstructionMovesExactly | Backend/backend/finance_ownership.py:566-664 | What each kind of request makes of an instruction's status, failure and success names, provider answers and approvals written out; nothing else moves it |
| CollectionHistory.FailureMovesNoMoney | Backend/backend/finance_ownership.py:662 | A delivery under one of the five failure names leaves allocations, calls and expenses as they were and its instruction FAILED |
| CollectionHistory.ExecutedWasApproved | Backend/backend/finance_ownership.py:575-590 | An execution that changes anything follows an approval of its instruction |
| CollectionHistory.ScheduledExactly | Backend/backend/finance_ownership.py:527-542 | A key asked before is found again with the same input and refused with another; a new key is taken exactly when nothing of a positive allocation has come in and the mandate allows all of it today; the instruction asks for all of it |
| CollectionHistory.PayoutExactly | Backend/backend/finance_ownership.py:544-560 | The same of payouts, which need an approved expense, a vendor and an amount within it |
| CollectionHistory.CalledExactly | Backend/backend/finance_ownership.py:490-525 | An expense is called for at most once in a run; a call is made exactly for an approved shareholder expense under an active policy that allows its amount and has weights of known holders |
| CollectionHistory.CalledRows | Backend/backend/finance_ownership.py:515-523 | The rows of a call are the pieces of the split of the whole expense, nothing collected |
| CollectionInvariants.MarkSuccessKeeps | Backend/backend/finance_ownership.py:263-279 | Marking an instruction successful keeps the invariant, allocations and funding only move on |
| CollectionInvariants.CreateCallKeeps | Backend/backend/finance_ownership.py:490-525 | A new call keeps it: its rows are the split of its total |
| CollectionInvariants.ScheduleKeeps | Backend/backend/finance_ownership.py:527-542 | Scheduling keeps it: an instruction asks for the whole remaining amount |
| CollectionInvariants.ExecuteKeeps | Backend/backend/finance_ownership.py:575-615 | Execution keeps it in every mode and for every provider outcome |
| CollectionInvariants.WebhookKeeps | Backend/backend/finance_ownership.py:636-668 | A webhook keeps it |
| CollectionInvariants.ReceivedIsDue | Backend/backend/finance_ownership.py:236-239 | What came in equals what is due exactly when every row is paid |
| CollectionDesk.AddAllocations | Backend/backend/finance_ownership.py:519-521 | The loop stores one row per piece |
| CollectionDesk.Desk.Serve | Backend/backend/finance_ownership.py:421-668 | Whatever requests a desk serves, its history is a run, so every promise above holds of it; each request keeps the invariant and takes back no collected amount and no FUNDED |
| CollectionDesk.Desk.CreateCall | Backend/backend/finance_ownership.py:490-525 | One call per expense, guarded by expense and policy, with one PENDING allocation per piece of the split |
| CollectionDesk.Desk.FindInstruction | Backend/backend/finance_ownership.py:652-657 | The named instruction, or the one that carries the reference |
| CollectionDesk.Desk.Webhook | Backend/backend/finance_ownership.py:644-668 | A recorded event changes nothing; an ambiguous lookup changes nothing and records nothing; otherwise the one instruction is told and the event recorded |
| GstReturns.RunKeeps | Backend/backend/gst_compliance.py:701-769 | The row invariant and one working per form and period hold in every run |
| GstReturns.FiledIsFinal | Backend/backend/gst_compliance.py:711-712 | A filed return is filed ever after, with summary, source hash, ITC review and decision unchanged |
| GstReturns.DecisionIsOnCurrentSummary | Backend/backend/gst_compliance.py:738-752 | Past DRAFT a return carries a CA decision on exactly its current summary; approved, in filing or filed it was approved on it |
| GstReturns.ClearedReturnsHaveItcReview | Backend/backend/gst_compliance.py:745-746 | A GSTR-3B that is approved, in filing or filed has an ITC review since its last build |
| GstReturns.VerifiedReturnsHaveArn | Backend/backend/gst_gsp_fynamics.py:889-926 | A FILED_VERIFIED return has an ARN |
| GstReturns.BuildStartsOver | Backend/backend/gst_compliance.py:716-733 | After a build nothing of an earlier review, filing or provider reference is left |
| GstReturns.RejectedIsFiledExactly | Backend/backend/gst_gsp_fynamics.py:906-939 | Of all nine requests, the next one files a rejected return if and only if it is a status check of it, an earlier upload left its reference, and the provider answers with an ARN and reports it filed |
| GstReturns.FiledRejectWasUploaded | Backend/backend/gst_gsp_fynamics.py:906-939 | In every run a filed return whose last decision is a REJECT was approved, uploaded, rejected and then confirmed, in this order and all on its present summary |
| GstReturns.FiledMayBeRejected | Backend/backend/gst_gsp_fynamics.py:906-936 | A filed return may carry a REJECT as last decision: a concrete run |
| GstReturns.BuildKeeps | Backend/backend/gst_compliance.py:701-736 | A build keeps the invariant and leaves filed rows alone |
| GstReturns.ReviewKeeps | Backend/backend/gst_compliance.py:738-752 | Both reviews keep the invariant and leave filed rows alone |
| GstReturns.SaveKeeps | Backend/backend/gst_gsp_fynamics.py:773-807 | Upload and filing evidence keep the invariant and leave filed rows alone |
| GstReturns.SubmitKeeps | Backend/backend/gst_gsp_fynamics.py:809-864 | Submit and EVC request keep the invariant and leave filed rows alone |
| GstReturns.FileKeeps | Backend/backend/gst_gsp_fynamics.py:866-904 | Filing keeps the invariant and leaves filed rows alone |
| GstReturns.VerifyKeeps | Backend/backend/gst_gsp_fynamics.py:906-939 | Verification keeps the invariant and confirms filed rows only |
| GstHistory.FilingGrantedExactly | Backend/backend/gst_gsp_fynamics.py:773-904 | In every run an upload, submit, code request, filing or record of evidence is granted if and only if the provider answers and the return's last move is the one it must follow: approval before upload or evidence, upload before submit (GSTR-1 only), submit or, for a GSTR-3B, upload before the code, code before the filing |
| GstHistory.CodeWasEarned | Backend/backend/gst_gsp_fynamics.py:809-904 | In every run a GSTR-1 at EVC_REQUESTED or GSP_FILE_REQUESTED was approved, uploaded, submitted and granted its code in this order, a GSTR-3B approved, uploaded and granted it with no submit ever, all on the present summary and with no other move in between |
| GstHistory.ReviewGrantedExactly | Backend/backend/gst_compliance.py:701-769 | In every run when a build, a CA decision, an ITC review and a status check are granted, told from the last move, the ITC review since the last build and the reference the provider gave |
| GstHistory.WrittenExactly | Backend/backend/gst_gsp_fynamics.py:773-939 | A return carries ITC evidence, a provider reference or an ARN if and only if it is the last one a granted request wrote since the last build (for the reference: or upload) |
| GstHistory.LastMove | Backend/backend/gst_compliance.py:701-769 | A return stands where its last granted move put it |
| GstHistory.CanBeFiled | Backend/backend/gst_gsp_fynamics.py:773-904 | Every return not filed, wherever it stands in a run, is FILED_VERIFIED on its summary under the reported ARN after five requests to a provider that answers |
| GstHistory.FiledGstr3b | Backend/backend/gst_gsp_fynamics.py:844-846 | A run of a GSTR-3B from its build through upload, code and filing to FILED_VERIFIED |
| GstDesk.Desk.Serve | Backend/backend/gst_compliance.py:701-769 | Whatever requests a desk serves, its history is a run, so every promise above holds of it; each request keeps the row invariant and leaves filed returns alone |
| GstDesk.Desk.BuildReturn | Backend/backend/gst_compliance.py:701-736 | The period's one working starts over as DRAFT, unless it is filed |
| Gstr1Upload.BuildGstr1 | Backend/backend/gst_gsp_fynamics.py:452-561 | Refused for a missing turnover exactly in production; otherwise built exactly when every uncancelled invoice of the month has its customer, and then every list, bucket and HSN line holds just the uncancelled invoices of the month that belong there, and every one of them is in its place |
| Gstr1Upload.InPeriodExactly | Backend/backend/gst_gsp_fynamics.py:458-463 | The selection holds each uncancelled invoice of the month as often as the table does, and nothing else |
| Gstr1Upload.EachOfMonthOnce | Backend/backend/gst_gsp_fynamics.py:458-512 | Lists, b2cl and buckets of the payload together hold each uncancelled invoice of the month as often as the table does, and nothing else |
| Gstr1Upload.BuiltHolds | Backend/backend/gst_gsp_fynamics.py:480-533 | Buyer lists by GSTIN, b2cl by tax, total and the threshold of the period, buckets by supply, rate and state with their four sums, HSN lines by code, rate and description with quantity, value and sums |
| Gstr1Upload.OutwardExactly | Backend/backend/gst_gsp_fynamics.py:564-582 | The outward supplies of a GSTR-3B are the four sums over the uncancelled invoices of its month |
| Gstr1.SectionsMatchHsnAndGstr3b | Backend/backend/gst_gsp_fynamics.py:564-582 | Taxable value and each tax: b2b, b2cl and b2cs together equal the HSN summary and the GSTR-3B outward supplies to the paisa |
| Gstr1.GroupingConserves | Backend/backend/gst_gsp_fynamics.py:480-533 | The sections and the HSN lines each add up to the invoices |
| Gstr1.EachInvoiceOnce | Backend/backend/gst_gsp_fynamics.py:486-512 | Every invoice of the period falls in exactly one place of the payload: its buyer's list, b2cl, or the bucket of its key, whose amounts are the totals of just those invoices |
| Gstr1.GroupingHolds | Backend/backend/gst_gsp_fynamics.py:480-533 | Every buyer's list, bucket and HSN line holds exactly its invoices or their totals, keys once each, HSN lines numbered 1 to k |
| Gstr1.GroupingIgnoresOrder | Backend/backend/gst_gsp_fynamics.py:480-533 | Contents of lists, buckets and HSN lines do not depend on invoice order |
| PeriodLocks.IsoOrderIsCalendarOrder | Backend/backend/period_controls.py:74-92 | String order on normalised dates is calendar order |
| PeriodLocks.OverlapMeansSharedPair | Backend/backend/period_controls.py:95-96 | The overlap test fires exactly when some day and domain would be closed twice |
| PeriodLocks.CreateRefusedExactly | Backend/backend/period_controls.py:169-178 | A lock is refused exactly when a pair it asks for is closed already |
| PeriodLocks.CreateAddsExactly | Backend/backend/period_controls.py:179-195 | A created lock closes exactly its span, none of which was closed |
| PeriodLocks.UnlockRemovesExactly | Backend/backend/period_controls.py:239-267 | An unlock needs an approved request for that lock and gives back exactly the pairs the lock held |
| PeriodLocks.PostingRefusedExactly | Backend/backend/period_controls.py:99-119 | A lookup answers exactly on the closed pairs |
| PeriodLocks.LookupIgnoresOrder | Backend/backend/period_controls.py:104-112 | At most one lock answers, so the answer does not depend on row order |
| PeriodLocks.RunKeeps | Backend/backend/period_controls.py:151-267 | In every run LOCKED rows own disjoint pairs, opened rows name an approved unlock request for them, and no lock has two requests waiting |
| PeriodLocks.CreateKeeps | Backend/backend/period_controls.py:151-195 | Creating keeps LOCKED rows disjoint |
| PeriodLocks.UnlockKeeps | Backend/backend/period_controls.py:239-267 | Unlocking keeps LOCKED rows disjoint |
| PeriodLocks.StepRefinesSet | Backend/backend/period_controls.py:151-267 | The lock table refines the set of closed pairs: every request moves the pairs the rows close exactly as it moves the set |
| PeriodHistory.UnlockGrantedExactly | Backend/backend/period_controls.py:239-267 | In every run an unlock is granted if and only if the lock was granted and not opened before, and the approval it names was drawn by an unlock request for this very lock and then approved |
| PeriodHistory.AskGrantedExactly | Backend/backend/period_controls.py:198-236 | In every run an unlock may be asked for exactly while the lock is LOCKED, and a new request is drawn exactly when none for the lock waits |
| PeriodLocks.Controls.Serve | Backend/backend/period_controls.py:151-267 | Whatever requests and decisions come, the history is a run, LOCKED rows own disjoint pairs and the closed pairs move as the simple set does |
| PeriodLocks.Controls.FindActive | Backend/backend/period_controls.py:99-112 | The loop finds the first row that answers |
| PeriodLocks.Controls.AssertOpen | Backend/backend/period_controls.py:115-119 | A posting goes through exactly on an open pair |
| PeriodLocks.Controls.Create | Backend/backend/period_controls.py:151-195 | The loop over overlapping rows adds the one LOCKED row or refuses, as the calendar lemmas require |
| Base32.DecodeBase32 | Authenticator/src/base32.ts:7-25 | The loops compute the decoding and yield floor(5n/8) bytes for n symbols; invalid exactly for empty or foreign text |
| Base32.EmitBytes | Authenticator/src/base32.ts:18-22 | The inner loop leaves fewer than eight bits |
| Base32.TakeSymbol | Authenticator/src/base32.ts:16-17 | Shift and OR take in five bits with fewer than 13 in use, so no 32-bit overflow |
| Base32.GiveByte | Authenticator/src/base32.ts:18-22 | Shift and masks give out the top eight bits and keep the rest |
| Base32.HoldsDecides | Authenticator/src/base32.ts:12-24 | The bytes out are settled by value and count |
| Base32.DecodeInvertsEncode | Authenticator/src/base32.ts:3-25 | Decoding inverts RFC 4648 section 6 encoding for every non-empty byte string in any spelling: lower case, spaces, hyphens, padding |
| Base32.RoundTrip | Authenticator/src/base32.ts:3-25 | Decoding the padded encoding gives the bytes back |
| Base32.Rfc4648Examples | Authenticator/src/base32.ts:1 | The encoding the decoder inverts gives the examples "fooba" and "f" of RFC 4648 section 10 |
| Base32.SpellingNormalizes | Authenticator/src/base32.ts:3-5 | Any such spelling normalises to the symbols |
| Base32.UnpaddedValue | Authenticator/src/base32.ts:1 | The encoded symbols stand for the bytes followed by at most four zero bits |
| JsBits.MaskIsMod | Authenticator/src/base32.ts:21 | A mask of ones keeps the low bits |
| JsBits.OrIsSum | Authenticator/src/base32.ts:16 | OR of a shifted value and one below the shift is their sum |
| Totp.CounterBytes | Authenticator/src/totp.ts:15-26 | Refused exactly outside the safe non-negative integers; otherwise eight bytes with the counter's value |
| Totp.CounterFormIsUnique | Authenticator/src/totp.ts:15-26 | Eight bytes with the counter's value are its big-endian form (RFC 4226 section 5.2) |
| Totp.Binary | Authenticator/src/totp.ts:48-57 | Masks, shifts and ORs compute dynamic truncation (RFC 4226 section 5.3), below 2^31 |
| Totp.CombinedIsValue | Authenticator/src/totp.ts:53-57 | Four bytes combine without overlap or sign |
| Totp.OffsetOf | Authenticator/src/totp.ts:49-52 | The offset always leaves four bytes of a 20-byte digest |
| Totp.CodeReads | Authenticator/src/totp.ts:58-61 | A code has exactly its number of decimal digits and reads as the value modulo the power of ten |
| Totp.Rfc4226Example | Authenticator/src/totp.ts:48-61 | The digest of RFC 4226 section 5.4 truncates to 0x50ef7f19 and comes to the code 872921 |
| Totp.CurrentTotp | Authenticator/src/totp.ts:35-66 | Succeeds exactly for 6 to 8 digits, periods of 15 to 120, a secret of ten bytes or more and a safe counter; the code is the HOTP of the step that contains the time, remaining the exact distance to the next step, and progress the part of the step that is over |
| Totp.MatchingCounter | Backend/backend/identity_auth.py:1329-1335 | The server finds a counter exactly when one of the three steps around its clock yields the code, and then the earliest |
| Totp.PhoneCodeIsMatched | Backend/backend/identity_auth.py:1329-1335 | The code the phone shows (that of currentTotp) is matched by every server with the same key whose clock is within one period, by a step that yields it |
| StructureLimits.ValidateStructureComplexity | Backend/backend/document_engine.py:100-121 | The stack loop accepts exactly the forests whose recursive depth, node count and text bytes, keys included, are within limits |
| StructureLimits.Push | Backend/backend/document_engine.py:113-119 | One visit counts the value's own text and pushes what is in it |
| StructureLimits.VisitAccounts | Backend/backend/document_engine.py:106-121 | A visit keeps the account of what is still due and leaves one node less; a refused visit means the forest is over a limit |
| StructureLimits.AnyOrderDecides | Backend/backend/document_engine.py:106-121 | Whatever the pop order, a finished check accepts exactly those forests |
| StructureLimits.AnyOrderFinishes | Backend/backend/document_engine.py:106-121 | Every pop order finishes within as many visits as there are nodes |

## Left out

- The life of an email challenge before its code is accepted (attempts, resends, lockouts), password lockouts, invitations and recovery tokens: they end in the modelled steps and touch none of the five tables.
- Argon2, Fernet, JWT, SHA-1, HMAC and SHA-256: access tokens are the claims a verified signature yields, hashes are injective wrappers, HMAC is any function to twenty bytes.
- `revoked_at` and other time stamps: set together with a status and never read back except where modelled.
- Event types that no property speaks of: the log keeps the ten kinds that do.
- Two requests overlapping inside the database, and the row locks against it.
- The checks on the shape of replies in activation.ts (`toSession` and the `valid...` functions): a malformed reply counts as no reply.
- `weight_bps` of an allocation, which is rounded in floating point: the shares themselves are modelled.
- Shareholder and class identifiers of the ledger: the unique number and code stand for them; folio and certificate numbers, voting rights and notes are stored and never looked at.
- Stripping and upper-casing of the bootstrap file, parsing of its numbers and dates, and the rounding of a face value to paise: the model starts from what these give.
- ShareRegister.ValidateConfig: takes the digits of a state code as 0 to 9; Python's `isdigit` also admits other scripts.
- `run_due`: it runs the modelled execution over rows but goes on in the same session after an error, so what an aborted execution leaves is the database's business.
- The body, signature and JSON checks of the webhook, and payment attempts.
- CollectionDesk.Desk.CreateCall: takes the allocation weights of the policy as given (dictionary keys distinct, custom weights validated) instead of reading the ledger for them.
- Payload details of GSTR-1 beyond the grouping: document series, turnover, rupee floats and their rounding, date formats.
- The return summary and its working hash: a summary is a text, its hash an injective image.
- HTTP clients, providers and their parsing: their outcomes are inputs.
- Parsing of entry dates: the model starts from the date a parser returned, or from its refusal; the year range is that of `datetime.date`.
- Totp.CurrentTotp: divides exactly where JavaScript divides in floating point, which differs only for times hundreds of thousands of years ahead.
- Base32.DecodeBase32: lists the characters beyond ASCII that upper-case to letters A to Z; other case mappings end outside the alphabet and are refused either way.
- Lone surrogates in the text of a structure, which Python refuses to encode.
- Document rendering, automation, audit retention, file security, the drive integration and the demo engine: their state is simple, or they are user interface.
