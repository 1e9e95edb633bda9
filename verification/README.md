# Verified model of the subscription backend's state-keeping core

This project models, in Dafny, the parts of the Telegram subscription backend that keep state across
requests, crashes, redeliveries and restarts, and proves what they promise.

- **Issuance** (`IssuanceStore`, `Issuance`, `IssuanceWorld`, `IssuanceStale`, `IssuanceSessions`,
  `IssuanceRevocation`, `IssuanceEntitlement`):
  the durable table as SQL statements, the service as a coroutine that gives up control at every await
  and as a class with the original's five in-memory structures, many processes interleaved over one
  store, and single instances with restarts and outside writers.
- **Access** (`Subscription`, `Access`, `AccessAnswers`, `EnsureAccess`, `EnsureAnswers`): the status view,
  `/get_access` resend with its cooldown, and the ADM-02 ensure-access operation, all over the same issuance
  state.
- **Update delivery** (`UpdateDedup`, `RateLimit`, `Polling`, `WelcomeDelivery`, `WelcomeWorld`): the dedup guard, the
  fixed-window limiter, polling offsets, and the `/start` bootstrap from pending to sent.
- **Billing fulfilment** (`Billing`, `BillingWorld`, `BillingConvergence`, `BillingSnapshots`,
  `BillingDecisions`, `ReferencePayments`): ledger ingest with its record validation, UC-05 apply and the
  final snapshot upsert as separate transactions under webhook redelivery.
- **Maintenance** (`Retention`, `Migrations`): bounded batch deletes and the checksummed migration ledger,
  both with the connection lost before any statement.
- **Checkout reference** (`Base64Url`, `PayloadJson`, `CheckoutReference`, `CheckoutAcceptance`): unpadded
  base64url (RFC 4648, sections 3.2 and 5), the JSON payload (RFC 8259), the verifier that undoes the
  creator, and what it accepts of anyone.

A class has the original's fields and methods; each method's contract equates its result and new state
with a function on values, and the theorems are lemmas about those functions and about runs built from
them. `IssuanceEntitlement`, `AccessAnswers`, `EnsureAnswers`, `BillingDecisions` and `CheckoutAcceptance`
say who is let through, in terms of the stored data and the request alone. A database call that can fail meets a `Fault`: the statement never ran, or it committed and the
answer was lost. Time values become integers or reals.

## What the proofs found

- Issuance replies agree on the ref, not on the category: an issue that inserts second is told ISSUED
  (`LateInsertIsToldIssued`), and two interleaved issues from nothing reach that (`BothAreToldIssued`).
- After a row is revoked from outside, exactly the processes with the link in their issue cache and the
  executes suspended past the point of noticing can still grant it (`GrantsAgainExactlyWhen`); it happens in
  `RevokedRowIsGrantedAgain`.
- A REVOKED reply is hollow exactly when the request key was already completed for another link
  (`RevokedReplyIsRealExactlyWhen`, reached from empty memory in `RevokedReplyCanBeHollow`); the operator's
  keys never are (`OperatorRequestsAreDisciplined`).
- Ensure-access looks at the label only and reports access as ready after the paid period has ended,
  when UC-02 says expired (`ReportedReadyAgainstStatus`, with an instance in `ExpiredIsReportedReady`).
- Ensure-access has one key per user: once its row is revoked no later call issues, whatever is paid since;
  the calls fail safe unless another current row is live (`RevokedKeyFailsSafe`,
  `RevokedKeyNeverIssuesAgain`).
- Touching a remembered update moves it behind younger ones without renewing its time, so between the
  two dedup bounds the answer depends on other keys (`TouchMovesButDoesNotRenew`); the exact condition, for
  every history, is `RejectedExactlyWhen`.
- A fetch with more accepted updates than the batch cap loses the rest: the offset passes them
  (`CapCutsOff`). It does not happen while the server keeps to the limit it is given.
- The welcome message is lost for good exactly when the attempt that completes the idempotency key ends
  before its pending row is written (`LostExactlyWhen`). With concurrent attempts it can be sent again after
  it is recorded as sent, by exactly the attempts that took the key for new or are past their look at the
  ledger (`SendsAgainExactlyWhen`).
- UC-05 commits the label before the paid period is written, so some faults leave a user active with no
  end (`LeftOpenEndedExactlyWhen`), and a late redelivery of an older event can take paid access away
  (`RedeliveryCutsAccessExactlyWhen`).
- The activation notice belongs to the delivery that first applies its event, whichever delivery ingested it.
  `NoticeLostExactlyWhen` says which deliveries activate without announcing; after them no run of anything
  announces the event (`NoticeStaysLost`, `LostNoticeNeverComes`).
- The webhook accepts payments that ingest then refuses: an internal user id over 256 characters, or a
  control character in it or in the payment id. Such a payment is answered 503 on every redelivery, is never
  activated, and leaves an identity row (`DeliveryPaysExactlyWhen`, `RefusedIsNeverPaid`, `RefusedAlone`).
  References with such internal ids are created, verified and resolved all the same
  (`ResolvedUserIsTakenExactlyWhen`, `ResolvesAndIsNeverPaid`).
- The checkout reference creator has no length limit but the verifier has one
  (`CreatedFitsExactlyWhen`).
- An allowed-call interval holds one call fewer than the rate limit's usual bound, and every rule and every
  positive length has a run that reaches it (`RateBound`, `BoundIsReached`).

## Hypotheses

- Restart transparency assumes one writer, a store that answers, and a provider that is a function of its
  arguments whose instructions do not depend on the correlation id; request keys determine their link. Ref
  agreement and the cache invariant assume none of this.
- Claims about revocation in memory take one `execute` of an instance at a time; other processes write
  between executes.
- Ensure-access and the resend spacing are about calls one after another; faults may strike at every await of
  each. The spacing assumes a cooldown that is not negative. The welcome bound is proved for attempts one
  after another and for attempts interleaved at every await.
- The dedup and rate bounds assume a clock that does not step back; the resend spacing does not.
- Billing convergence assumes that an event id always comes with the same body and that, while p is being
  delivered, no other event first sets the same user's snapshot; payments are as the webhook's parser and
  identity resolution leave them (`Parsed`), and identity rows follow the one convention their writers use.
  Conservation assumes nothing.
- Migration claims about unchanged files say so; the claim about repeated bodies does not need it.
- The digest is any function with 64 lower-case hexadecimal characters as values; the clock's ISO text of
  the second at hand is 19 printable characters that its parser reads back.

## Model

| member | source | states |
|---|---|---|
| IssuanceStore.IssuanceStateRepository.IssueOrGet | backend/src/app/persistence/postgres_issuance_state.py:210-237 | INSERT ON CONFLICT then SELECT: an existing row is never changed, a new one is stored with the given ref; on a lost answer the statement may still have committed |
| IssuanceStore.IssuanceStateRepository.MarkRevoked | backend/src/app/persistence/postgres_issuance_state.py:239-258 | the row, if any, becomes revoked and keeps an earlier revocation's time; the returned row is the stored one |
| IssuanceStore.IssuanceStateRepository.ReconcileExpiredActiveSubscriptions | backend/src/app/persistence/postgres_issuance_state.py:272-287 | the whole new table and the number of rows flipped |
| IssuanceStore.IssuanceStateRepository.GetCurrentForUser | backend/src/app/persistence/postgres_issuance_state.py:260-270 | finds the user's last-updated row, the one every other row of the user comes before, or none when there is none |
| IssuanceStore.SweepIsExact | backend/src/app/persistence/postgres_issuance_state.py:123-138 | the sweep revokes exactly the live rows of users whose UC-02 lifecycle status at that instant is SUBSCRIPTION_EXPIRED, and a second sweep finds none |
| IssuanceStore.SweepFlipsThePastDue | backend/src/app/persistence/postgres_issuance_state.py:123-138 | every row after a sweep: revoked at the instant if it was live, its user's label is active and the end lies before the instant, else unchanged |
| IssuanceStore.StatementsWrite | backend/src/app/persistence/postgres_issuance_state.py:53-106 | an insert stores a live row once, a revoke flips a live row and keeps an earlier revocation time, and no other row changes |
| IssuanceStore.CurrentIsUnique | backend/src/app/persistence/postgres_issuance_state.py:108-121 | a user has at most one current row |
| IssuanceStore.StatementsGrow | backend/src/app/persistence/postgres_issuance_state.py:53-138 | no statement removes a row, changes a ref, or undoes or redates a revocation |
| IssuanceStore.RunsConserve | backend/src/app/persistence/postgres_issuance_state.py:53-138 | over any run of statements: rows inserted = rows still issued + rows flipped by sweeps and by mark_revoked |
| Issuance.IssuanceService.Execute | backend/src/app/issuance/service.py:142-151 | result, all five in-memory structures and the table after one execute are those of the coroutine run to its end, for every request, provider and fault |
| Issuance.IssuanceService.ExecuteIssue | backend/src/app/issuance/service.py:153-234 | the same for issue, from the code's own branches |
| Issuance.IssuanceService.ExecuteResend | backend/src/app/issuance/service.py:236-297 | the same for resend |
| Issuance.IssuanceService.ExecuteRevoke | backend/src/app/issuance/service.py:299-368 | the same for revoke |
| Issuance.IssuanceService.ClearInMemoryState | backend/src/app/issuance/service.py:83-89 | all memory empty, the audit included |
| Issuance.ResumeProgresses | backend/src/app/issuance/service.py:153-368 | every resumption replies or awaits something strictly later, so an execute makes at most three calls |
| IssuanceEntitlement.GrantsNeedActive | backend/src/app/issuance/entitlement.py:16-18 | ISSUED, ALREADY_ISSUED and DELIVERY_READY are only said to a request whose subscription is active, with any memory, table, provider and faults |
| IssuanceEntitlement.OthersAreDenied | backend/src/app/issuance/entitlement.py:21-33 | a well-formed issue or resend with any other state changes nothing but the audit and is told NEEDS_REVIEW for that state, else NOT_ENTITLED |
| IssuanceEntitlement.MalformedIsRefused | backend/src/app/issuance/service.py:103-113 | a request without a key, with a correlation id that is not 32 lower-case hexadecimal digits, or whose link does not go with its operation is an internal error and changes nothing but the audit |
| IssuanceEntitlement.GrantRepliesNeedActive | backend/src/app/issuance/service.py:153-160 | over any interleaving from the initial world every granting reply is to a request whose subscription is active |
| IssuanceEntitlement.FirstIssue | backend/src/app/issuance/service.py:176-234 | what a freshly started service answers to an issue and leaves in the table, for each row, provider answer and store fault; ISSUED exactly when the row was stored live with the provider's ref |
| IssuanceEntitlement.FirstResend | backend/src/app/issuance/service.py:246-297 | the same for a resend, which never touches the table and delivers a live row's ref only |
| IssuanceEntitlement.FirstRevoke | backend/src/app/issuance/service.py:312-368 | the same for a revoke, for any subscription state |
| IssuanceEntitlement.FirstIssueIsRemembered | backend/src/app/issuance/service.py:166-224 | the whole memory after a first issue: the link as issued exactly if it was granted |
| IssuanceEntitlement.FirstResendIsRemembered | backend/src/app/issuance/service.py:246-282 | the whole memory after a first resend: instructions under the request's own key if delivered, a revoked row's link as revoked |
| IssuanceEntitlement.FirstRevokeIsRemembered | backend/src/app/issuance/service.py:312-359 | the whole memory after a first revoke: link and request key as revoked exactly if it was told REVOKED |
| IssuanceEntitlement.RememberedAnswersAskNobody | backend/src/app/issuance/service.py:168-175 | a remembered issue, resend or revoke is answered again from memory, whatever the table, the provider and the faults, and changes nothing but the audit |
| IssuanceEntitlement.EachExecuteIsAuditedOnce | backend/src/app/issuance/service.py:91-101 | every execute appends exactly one audit record, with the request and the category of its reply |
| IssuanceWorld.StepIsOk | backend/src/app/issuance/service.py:120-133 | every step of any process, with any fault, keeps the invariant of caches, ledgers, pending awaits, answers and replies |
| IssuanceWorld.CacheInvariant | backend/src/app/issuance/service.py:120-133 | in every reachable world each process's issue cache holds exactly its ISSUED ledger entries with equal refs, every ledger ref is its row's ref, and a revoked entry's row is revoked |
| IssuanceWorld.ReachableIsOk | backend/src/app/persistence/postgres_issuance_state.py:53-73 | over any interleaving the invariant holds and the store only grows |
| IssuanceWorld.RefAgreement | backend/src/app/issuance/service.py:162-224 | all ISSUED and ALREADY_ISSUED replies for one user and key, from any processes in any interleaving with crashes and faults, carry one ref, that of the stored row |
| IssuanceWorld.LateInsertIsToldIssued | backend/src/app/issuance/service.py:196-224 | an issue that reaches the INSERT after another's row is told ISSUED with the stored ref and changes nothing |
| IssuanceWorld.BothAreToldIssued | backend/src/app/issuance/service.py:176-224 | a run from the initial world, for any issue request, in which two interleaved processes are both told ISSUED with the first ref |
| IssuanceStale.GrantsAgainExactlyWhen | backend/src/app/issuance/service.py:162-224 | in any consistent world with a revoked row, some run grants the link again if and only if a process has it in its issue cache or an execute for it is suspended past the point of noticing |
| IssuanceStale.SpentForGood | backend/src/app/issuance/service.py:120-133 | once neither is the case, no run grants the link |
| IssuanceStale.RevokedRowIsGrantedAgain | backend/src/app/issuance/service.py:166-175 | a run from the initial world: issued, revoked from outside, and the same process says ALREADY_ISSUED |
| IssuanceSessions.OperatorRequestsAreDisciplined | backend/src/app/application/issuance_operator_main.py:106-129 | the operator's request keys determine the link they are used for |
| IssuanceSessions.MemoryIsInvisible | backend/src/app/issuance/service.py:153-368 | a service whose memory agrees with the table replies and writes as a service without memory, and stays so |
| IssuanceSessions.RestartTransparency | backend/src/app/issuance/service.py:83-89 | wiping the memory at any points of any request sequence changes no reply |
| IssuanceRevocation.RevokedReplyBlocks | backend/src/app/issuance/service.py:305-359 | after a REVOKED reply to a disciplined revoke the link is revoked in memory or at rest, in a way no execute undoes |
| IssuanceRevocation.RevokedReplyIsRealExactlyWhen | backend/src/app/issuance/service.py:305-310 | for any keys: a REVOKED reply blocks its link if and only if the request key was not already completed or the link was blocked before |
| IssuanceRevocation.RevokedReplyCanBeHollow | backend/src/app/issuance/service.py:305-310 | from empty memory, two revokes of different links under one request key are both told REVOKED and the second row stays live |
| IssuanceRevocation.ExecuteKeepsBlocked | backend/src/app/issuance/service.py:153-368 | on a blocked link no execute grants access or lifts the block |
| IssuanceRevocation.SessionsStayOk | backend/src/app/issuance/service.py:120-133 | any acts of disciplined requests, restarts and outside writers keep an instance healthy |
| IssuanceRevocation.TerminalRevocation | backend/src/app/issuance/service.py:265-268 | after a REVOKED reply no later request for that link gets ISSUED, ALREADY_ISSUED or DELIVERY_READY, across restarts when there is a store |
| Access.AccessResendCooldownStore.ConsumeOrReject | backend/src/app/application/telegram_access_resend.py:102-107 | allowed exactly when the user is off cooldown, and then the next allowed time is set |
| Access.TelegramAccessResendHandler.Handle | backend/src/app/application/telegram_access_resend.py:149-250 | outcome, cooldowns, service memory and store after one resend, with every dependency failing or not |
| Access.AcceptedMeansReady | backend/src/app/application/telegram_access_resend.py:171-250 | an accepted resend implies that UC-02 says ACCESS_READY |
| Access.LiveRowIsDelivered | backend/src/app/issuance/service.py:246-297 | with a healthy memory and a ready provider a live row is delivered |
| Access.StatusAndResendAgree | backend/src/app/application/handlers.py:350-394 | in every reachable world: status is ACCESS_READY if and only if an enabled resend, off cooldown and with a ready provider, is accepted |
| AccessAnswers.StatusSays | backend/src/app/application/handlers.py:333-394 | the status of a known user from the stored label, its end and the last-updated row; ACCESS_READY needs an active label, an end not passed and a live last-updated row |
| AccessAnswers.StatusFailsClosed | backend/src/app/application/handlers.py:295-347 | a rejected input or a failed read shows the inactive bucket, an unknown user bootstrap, and whoever is not paid up is never shown as active |
| AccessAnswers.CurrentIsLatest | backend/src/app/persistence/postgres_issuance_state.py:108-121 | the current row is the one with the largest update time, ties going to the last key in text order |
| AccessAnswers.ResendConsumesExactlyWhen | backend/src/app/application/telegram_access_resend.py:171-216 | COOLDOWN is said exactly to an eligible call before the user's next allowed time and changes nothing; any other eligible call moves that time, and no other user's, to a cooldown from now; a call that is not eligible moves none |
| AccessAnswers.RepeatIsToldCooldown | backend/src/app/application/telegram_access_resend.py:102-107 | after a call that got past the cooldown and any run of further calls and outside writes, an eligible call by the same user less than a cooldown later is told COOLDOWN and changes nothing |
| AccessAnswers.NextAllowedNeverFalls | backend/src/app/application/telegram_access_resend.py:95-107 | no run of calls brings a user's next allowed time forward |
| AccessAnswers.ResendsAreSpaced | backend/src/app/application/telegram_access_resend.py:208-250 | over runs of the handler, for any clock, any other users, any faults and any outside writes, one user's accepted resends are at least a cooldown apart |
| AccessAnswers.EligibleResendSays | backend/src/app/application/telegram_access_resend.py:218-250 | off the cooldown, the answer for each state of the last-updated row and each answer of the provider; the rows stay as they are |
| AccessAnswers.ExpiredResendRevokes | backend/src/app/application/telegram_access_resend.py:188-206 | an expired subscriber is refused and loses the live current row and nothing else |
| AccessAnswers.ResendKeysAreUnique | backend/src/app/application/telegram_access_resend.py:110-111 | two resends share an idempotency key only if they are the same user's same update |
| EnsureAccess.Adm02EnsureAccessHandler.Handle | backend/src/app/admin_support/adm02_ensure_access.py:53-228 | result with its whole summary, service memory and table, and exactly one audit event attempted, which carries the outcome bucket, remediation and readiness of the result |
| EnsureAccess.Adm02EnsureAccessHandler.EnsureAccessIssued | backend/src/app/admin_support/adm02_ensure_access_mutation.py:30-50 | drives the service with the user's one deterministic key; true exactly for ISSUED |
| EnsureAnswers.DeniedWritesNothing | backend/src/app/admin_support/adm02_ensure_access.py:53-124 | a caller not allowed, or without the mutation opt-in, is denied and nothing is written; a bad correlation id and a port that raises likewise write nothing |
| EnsureAnswers.WritesOnlyWhenItMayIssue | backend/src/app/admin_support/adm02_ensure_access.py:79-181 | a call writes only if it is allowed and opted in, its user is known and labelled active, and no live row is last-updated |
| EnsureAnswers.AnswersWithoutIssuing | backend/src/app/admin_support/adm02_ensure_access.py:140-177 | the whole summary of a call that fails a read, finds no active subscription, or finds access ready |
| EnsureAnswers.FirstEnsureIssues | backend/src/app/admin_support/adm02_ensure_access.py:179-208 | of a paid user without any row, the one row inserted and the report, unless a fault hides it; otherwise the safe failure |
| EnsureAnswers.AuditSays | backend/src/app/admin_support/adm02_ensure_access.py:210-280 | the audit bucket, remediation and readiness of each outcome; a denial says which of the two refused |
| EnsureAnswers.EnsureKeysAgreeExactlyWhen | backend/src/app/admin_support/adm02_ensure_access_mutation.py:47-50 | a user's key is made from the user's digest alone; two users share one exactly if the first 32 digest characters agree |
| EnsureAccess.IssuedMeansInserted | backend/src/app/admin_support/adm02_ensure_access_mutation.py:30-45 | an ISSUED reply to a single execute means that the row was not there and now is |
| EnsureAccess.EnsureAccessIssuesOnce | backend/src/app/admin_support/adm02_ensure_access.py:53-208 | over any sequential run with restarts, faults and outside writers at most one call per user reports ISSUED_ACCESS |
| EnsureAccess.ReportedReadyAgainstStatus | backend/src/app/admin_support/adm02_ensure_access.py:95-208 | when ensure-access reports access as ready UC-02 agrees exactly when the paid period has not ended |
| EnsureAccess.ExpiredIsReportedReady | backend/src/app/admin_support/adm02_ensure_access.py:140-177 | an active snapshot whose end has passed and one live row: ensure-access says access is ready, UC-02 says expired |
| EnsureAccess.RevokedKeyFailsSafe | backend/src/app/admin_support/adm02_ensure_access.py:164-208 | with the user's deterministic row revoked, a call that reaches issuance says ready if another current row is live and otherwise fails safe, and changes no row |
| EnsureAccess.RevokedKeyNeverIssuesAgain | backend/src/app/admin_support/adm02_ensure_access_mutation.py:30-50 | from then on, over any calls, restarts and outside writers, no call for the user reports ISSUED_ACCESS |
| UpdateDedup.InMemoryTelegramUpdateDedupGuard.EvictExpired | backend/src/app/application/telegram_update_dedup.py:67-76 | drops the longest all-expired front of the ordered map, everything for a non-positive TTL |
| UpdateDedup.InMemoryTelegramUpdateDedupGuard.EvictOverflow | backend/src/app/application/telegram_update_dedup.py:78-80 | keeps the last max_entries items |
| UpdateDedup.InMemoryTelegramUpdateDedupGuard.MarkIfFirstSeen | backend/src/app/application/telegram_update_dedup.py:50-65 | answer and whole ordered map after one call |
| UpdateDedup.AfterIsOrdered | backend/src/app/application/telegram_update_dedup.py:50-80 | the map is always in order of last touch, with distinct keys |
| UpdateDedup.SizeIsBounded | backend/src/app/application/telegram_update_dedup.py:78-80 | never more than max_entries items |
| UpdateDedup.UntouchedIsAccepted | backend/src/app/application/telegram_update_dedup.py:67-76 | a key not marked for at least the TTL is accepted |
| UpdateDedup.RecentIsRejected | backend/src/app/application/telegram_update_dedup.py:50-80 | a key accepted less than the TTL ago is rejected if fewer than max_entries distinct other keys were marked since its last touch |
| UpdateDedup.RejectedExactlyWhen | backend/src/app/application/telegram_update_dedup.py:50-80 | for every configuration and history: a call is rejected if and only if some first-seen call within its TTL, whose key has fewer than max_entries distinct others since its last touch, is for the same key or for one this key was touched after |
| UpdateDedup.AfterIsClosed | backend/src/app/application/telegram_update_dedup.py:56-80 | the remembered keys are the most recently touched ones: a key touched after a remembered key is remembered |
| UpdateDedup.TouchMovesButDoesNotRenew | backend/src/app/application/telegram_update_dedup.py:56-65 | an instance of the exact condition: two histories that differ in another key only and answer differently |
| RateLimit.InMemoryTelegramCommandRateLimiter.Allow | backend/src/app/application/telegram_command_rate_limit.py:63-80 | answer and whole window map after one call |
| RateLimit.KeysAreIndependent | backend/src/app/application/telegram_command_rate_limit.py:60-80 | the decisions for one key are those of a limiter that sees that key's calls only |
| RateLimit.RateBound | backend/src/app/application/telegram_command_rate_limit.py:63-80 | any half-open interval of length L holds at most max_requests * (ceil(L / window) + 1) - 1 allowed calls of a key |
| RateLimit.BoundIsReached | backend/src/app/application/telegram_command_rate_limit.py:63-80 | for every rule that lets anything through and every positive length, a run of one key and an interval of that length that holds exactly the bound |
| RateLimit.TurnedAwayExactlyWhen | backend/src/app/application/telegram_command_rate_limit.py:63-80 | a call is turned away exactly when its window is still on and holds as many calls as allowed, or none is allowed |
| RateLimit.TurnedAwayChangesNothing | backend/src/app/application/telegram_command_rate_limit.py:75-80 | a call turned away inside its window moves neither its start nor its count |
| RateLimit.QuietKeyIsLetThrough | backend/src/app/application/telegram_command_rate_limit.py:63-80 | over any run, a call none of whose key's let-through calls lies within the last window is let through, however many were turned away |
| Polling.AdvanceOffset | backend/src/app/runtime/offsets.py:8-45 | the offset never decreases and passes every valid id of the batch |
| Polling.BridgeRuntimeUpdates | backend/src/app/runtime/bridge.py:26-49 | the accepted updates in order, and counts that add up to the batch |
| Polling.AcceptedInOrder | backend/src/app/runtime/bridge.py:26-49 | accepted updates keep the order of the batch: bridging two batches is bridging one and then the other |
| Polling.RawPollingRuntime.PollOnce | backend/src/app/runtime/raw_polling.py:140-179 | a failed fetch changes nothing; otherwise the offset advances and the accepted updates, up to the batch cap, are processed |
| Polling.CapCutsOff | backend/src/app/runtime/polling.py:78-84 | the accepted updates are the processed ones followed by the cut-off ones; there are cut-off ones exactly when more are accepted than the cap, and the next offset is past them |
| Polling.PollMovesPastWhatItHandsOn | backend/src/app/runtime/raw_polling.py:140-165 | a poll moves the offset past exactly the updates it hands on |
| Polling.PollingIsComplete | backend/src/app/runtime/raw_polling.py:140-179 | over any run of arrivals, polls and failures the updates handed on are exactly those below the offset, in order, each once |
| Polling.PollsDrainTheFeed | backend/src/app/runtime/raw_polling.py:140-179 | enough successful polls hand on the whole feed |
| WelcomeDelivery.Slice1PollingRuntime.Bootstrap | backend/src/app/application/handlers.py:99-263 | outcome and tables of a bootstrap with a fault at any await |
| WelcomeDelivery.Slice1PollingRuntime.ProcessUpdate | backend/src/app/bot_transport/runtime_wrapper.py:84-164 | effect, tables and the welcome sent, if any, for one update |
| WelcomeDelivery.Slice1PollingRuntime.ProcessBatch | backend/src/app/runtime/polling.py:72-128 | one attempt per update up to the cap, whatever the earlier ones did, and each of the four counters is the number of attempts that came to it |
| WelcomeDelivery.BootstrapKeepsLedger | backend/src/app/application/handlers.py:128-237 | bootstrap writes no delivery row, never un-completes a key, and is told ready for the first time only where there is no delivery row |
| WelcomeDelivery.BootstrapGrantsNothing | backend/src/app/application/handlers.py:239-263 | a bootstrap adds at most the snapshot "inactive" without an end and the identity of its own user, and changes no other snapshot or identity |
| WelcomeDelivery.BootstrapEndsKnown | backend/src/app/application/handlers.py:128-237 | a bootstrap that answers leaves the user with an identity, a snapshot and a completed key, and says replay exactly if the key was completed before |
| WelcomeDelivery.FirstStartIsWelcomed | backend/src/app/runtime/polling.py:97-121 | with nothing failing, the first /start of a private chat sends the welcome and records its message id, with one audit row |
| WelcomeDelivery.RepeatedStartRetriesPending | backend/src/app/bot_transport/runtime_wrapper.py:105-139 | a repeated /start sends again exactly if the welcome is still pending, and writes no audit row |
| WelcomeDelivery.CountersSay | backend/src/app/runtime/polling.py:80-128 | what each of the four batch counters counts |
| WelcomeDelivery.AttemptIsOrderly | backend/src/app/runtime/polling.py:97-121 | an attempt sends only for its own key, never once sent is recorded, and records sent only with the message id it got |
| WelcomeDelivery.WelcomeBound | backend/src/app/bot_transport/runtime_wrapper.py:103-164 | sends for a key = sends whose mark_sent did not commit, plus one exactly when the ledger says sent |
| WelcomeDelivery.SentIsFinal | backend/src/app/persistence/postgres_outbound_delivery.py:44-75 | once sent is recorded nothing is sent again and the message id never changes |
| WelcomeDelivery.LostStaysLost | backend/src/app/bot_transport/runtime_wrapper.py:103-164 | a completed key without a delivery row is never welcomed |
| WelcomeDelivery.LostExactlyWhen | backend/src/app/application/handlers.py:128-237 | the faults of the completing attempt that lose the welcome, exactly |
| WelcomeWorld.AloneIsProcess | backend/src/app/runtime/polling.py:84-121 | the stages of an interleaved attempt, driven without interleaving, come to what the sequential attempt comes to |
| WelcomeWorld.ConcurrentWelcomeBound | backend/src/app/runtime/polling.py:97-121 | over any interleaving of attempts and crashes: sends for a key = attempts that ended without recording theirs + those about to record it + one exactly when the ledger says sent |
| WelcomeWorld.RecordIsFinal | backend/src/app/persistence/postgres_outbound_delivery.py:70-75 | once recorded the message id never changes in any run |
| WelcomeWorld.SendsAgainExactlyWhen | backend/src/app/bot_transport/runtime_wrapper.py:103-164 | with the welcome recorded, some run sends it again if and only if an attempt is under way that took the key for new or is past its look at the ledger |
| WelcomeWorld.ReachedIsOrderly | backend/src/app/application/handlers.py:128-237 | every reached world has delivery rows and late stages for completed keys only |
| Billing.FulfillmentDatabase.CreateIfAbsent | backend/src/app/persistence/postgres_user_identity.py:57-69 | the identity exists afterwards, an existing one unchanged |
| Billing.FulfillmentDatabase.IngestNormalizedBillingFact | backend/src/app/persistence/postgres_billing_ingestion_atomic.py:29-71 | the record is trimmed and validated, then appended by event id with its audit row in one transaction; the stored fact is returned; a refused record changes nothing |
| Billing.FulfillmentDatabase.ApplyByInternalFactRef | backend/src/app/persistence/postgres_billing_subscription_apply.py:51-129 | snapshot, apply record and audit in one transaction, a replay changing nothing |
| Billing.FulfillmentDatabase.Handle | backend/src/app/runtime/payment_fulfillment_ingress.py:480-541 | the answer, the tables and the notice of one delivery with a fault at each transaction, 503 for a payment that ingest refuses included |
| BillingDecisions.FirstApplyDecides | backend/src/app/domain/uc05_apply_decision.py:50-114 | the first apply sets active exactly for an accepted fact with a user of type subscription_activated, needs_review exactly for an accepted fact with a user of any other type, and no snapshot otherwise; the record, its user or sentinel, and the audit row |
| BillingDecisions.LaterApplyReplays | backend/src/app/persistence/postgres_billing_subscription_apply.py:71-92 | a later apply answers with the first outcome and an unknown ref with NOT_FOUND, both changing nothing |
| BillingDecisions.ActiveIsPaidFor | backend/src/app/domain/uc05_apply_decision.py:88-114 | from empty tables through any interleaving, a user whose snapshot is active has an applied accepted activation in the ledger or a verified payment that was delivered |
| BillingDecisions.ActiveMeansActivated | backend/src/app/domain/uc05_apply_decision.py:88-114 | where only UC-05 and bootstrap write, it is the applied activation of that user |
| BillingDecisions.RecordIsBuiltExactlyWhen | backend/src/app/application/billing_ingestion.py:33-169 | which facts ingest takes, by the trimmed lengths and characters of their texts, and the record it builds of one |
| BillingDecisions.IngestStoresOnce | backend/src/app/persistence/postgres_billing_ingestion_atomic.py:29-71 | a new event is stored as given and a known one answers with the fact it was stored as; one audit row either way |
| BillingDecisions.PaymentBuysItsPeriod | backend/src/app/runtime/payment_fulfillment_ingress.py:480-541 | an uninterrupted delivery leaves its user active up to the given number of days of 24 hours after the payment and expired after it |
| BillingWorld.ParsedIngest | backend/src/app/application/billing_ingestion.py:132-169 | ingest takes a parsed payment as it is if user and provider have at most 256 characters and user, payment id and event key hold no character it forbids, and refuses it otherwise |
| BillingWorld.IngestConserves | backend/src/app/persistence/postgres_billing_events_ledger.py:186-214 | an ingest keeps the two indexes and the audit in agreement and changes no stored fact |
| BillingWorld.ApplyConserves | backend/src/app/persistence/postgres_billing_subscription_apply.py:71-129 | an apply keeps records, facts and audit in agreement |
| BillingWorld.StepIsOk | backend/src/app/runtime/payment_fulfillment_ingress.py:480-541 | every transaction of every delivery keeps conservation and the notice budget of each event |
| BillingWorld.BillingConservation | backend/src/app/persistence/postgres_billing_ingestion_atomic.py:41-65 | from empty tables through any interleaving: new-ingest audits = ledger rows, apply audits = apply records, each with its fact and due decision, at most one notice per event and only when activated, no delivery answered as rejected |
| BillingWorld.NoticeStaysLost | backend/src/app/runtime/payment_fulfillment_ingress.py:499-522 | once an event is activated with no notice sent and no delivery about to send one, no run sends one |
| BillingConvergence.RunConverges | backend/src/app/runtime/payment_fulfillment_ingress.py:480-498 | the stage of every delivery of p is backed by the tables, and an answered 200 means p is settled from then on |
| BillingConvergence.DeliverSettles | backend/src/app/runtime/payment_fulfillment_ingress.py:480-541 | an uninterrupted delivery of a payment that ingest takes is answered 200, leaves the paid footprint, and announces exactly a first activation |
| BillingConvergence.DeliveryPaysExactlyWhen | backend/src/app/application/billing_ingestion.py:49-61 | an uninterrupted delivery is answered 200 if and only if ingest takes the payment |
| BillingConvergence.PaysInEveryReachableState | backend/src/app/runtime/payment_fulfillment_ingress.py:480-541 | the same in every state reached from empty tables, for a parsed payment whose event is not known under another body |
| BillingConvergence.RefusedIsNeverPaid | backend/src/app/application/billing_ingestion.py:132-169 | over every run from any tables a payment that ingest refuses is never answered 200 and no delivery of it reaches apply |
| BillingConvergence.RefusedAlone | backend/src/app/runtime/payment_fulfillment_ingress.py:480-541 | any deliveries of a refused payment leave at most the identity row and send no notice |
| BillingConvergence.ControlCharacterIsRefused | backend/src/app/runtime/payment_fulfillment_ingress.py:104-113 | a payment the parser lets through and ingest refuses |
| BillingConvergence.IdsAreUnique | backend/src/app/persistence/postgres_user_identity.py:11-13 | different Telegram ids have different internal ids, so the unique column refuses none |
| BillingConvergence.RedeliveryConverges | backend/src/app/runtime/payment_fulfillment_ingress.py:480-498 | any interleaving of cut-off deliveries of p, with other events about, ending in one 200, leaves identity, fact, decision and snapshot equal to one uninterrupted delivery's, which is answered 200 too |
| BillingConvergence.RedeliveryAlone | backend/src/app/runtime/payment_fulfillment_ingress.py:480-498 | with no other event about, everything else in the tables is untouched as well |
| BillingSnapshots.SnapshotIsAFold | backend/src/app/domain/uc05_apply_decision.py:50-114 | with UC-05 and bootstrap writing only, a user's snapshot is the latest labelled first apply, else inactive if bootstrapped, else missing |
| BillingSnapshots.LeftOpenEndedExactlyWhen | backend/src/app/persistence/postgres_billing_subscription_apply.py:87-95 | a delivery leaves its user active with no end exactly if its event was not applied before, ingest takes the payment and it meets the stated faults; then it is answered 503 and the user never expires |
| BillingSnapshots.NoticeLostExactlyWhen | backend/src/app/runtime/payment_fulfillment_ingress.py:499-522 | a delivery activates its event without announcing it exactly if the event was not applied before, ingest takes the payment and it meets the stated faults |
| BillingSnapshots.LostNoticeNeverComes | backend/src/app/runtime/payment_fulfillment_ingress.py:499-522 | after such a delivery of an event not applied before, no run of any further deliveries announces the event |
| BillingSnapshots.NoticeCanBeLost | backend/src/app/runtime/payment_fulfillment_ingress.py:499-522 | a delivery on empty tables that activates without announcing |
| BillingSnapshots.RedeliveryCutsAccessExactlyWhen | backend/src/app/runtime/payment_fulfillment_ingress.py:487-498 | redelivering p takes away access paid by another event exactly if ingest takes p, and at which instants |
| Retention.RetentionDatabase.Cleanup | backend/src/app/persistence/slice1_retention_manual_cleanup.py:129-192 | configuration errors, dry run and real run: report and tables, also when the connection is lost at any statement |
| Retention.RetentionDatabase.DeleteInRounds | backend/src/app/persistence/slice1_retention_manual_cleanup.py:153-182 | each table loses min(matching, max_rounds * batch_limit) rows in min(max_rounds, 1 + the largest number of batches) rounds |
| Retention.DeleteBatchLeaves | backend/src/app/persistence/slice1_retention_manual_cleanup.py:34-74 | a batch removes the first limit matching rows and no other |
| Retention.OldestGoFirst | backend/src/app/persistence/slice1_retention_manual_cleanup.py:34-74 | every removed row is older than every matching row that stays |
| Retention.CleanupLeaves | backend/src/app/persistence/slice1_retention_manual_cleanup.py:153-182 | what remains of the matching and of the other rows of each table, and how many went |
| Retention.UnsettledSurvive | backend/src/app/persistence/slice1_retention_manual_cleanup.py:46-74 | pending, uncompleted and young rows survive any cleanup, cut off or not |
| Retention.OldSettledRowsGo | backend/src/app/persistence/slice1_retention_manual_cleanup.py:34-74 | a cleanup whose rounds sufficed leaves no audit row before the cutoff and no completed or sent one |
| Retention.CountedAreOldAndSettled | backend/src/app/persistence/slice1_retention_manual_cleanup.py:22-62 | the counts are the numbers of audit rows before the cutoff and of completed and of sent rows before it |
| Retention.CleanupResumes | backend/src/app/persistence/slice1_retention_manual_cleanup.py:153-182 | a cut-off cleanup run again comes to one longer cleanup; fewer rounds than allowed means nothing matching is left |
| Migrations.MigrationDatabase.ApplyPostgresMigrations | backend/src/app/persistence/postgres_migrations.py:43-114 | result, ledger and executed bodies of one run that may stop before any statement |
| Migrations.SortedPathsAreTheSqlFiles | backend/src/app/persistence/postgres_migrations.py:28-36 | the run's files are the directory's SQL files, each once; of two files the earlier name is a prefix of the later or has the smaller character where they first differ |
| Migrations.SqlFilesEndInSql | backend/src/app/persistence/postgres_migrations.py:28-36 | an SQL file is a plain file whose name has something before .sql, in letters of either case |
| Basics.LexIsTextOrder | backend/src/app/persistence/postgres_migrations.py:36-36 | the comparison the sort uses is text order: a prefix first, else the smaller character at the first difference |
| Migrations.WholeWalk | backend/src/app/persistence/postgres_migrations.py:76-114 | a run with enough statements executes exactly the unlisted files before the first drifted one, once and in order, and records them; it is done exactly when none has drifted |
| Migrations.CutRunExecutesAPrefix | backend/src/app/persistence/postgres_migrations.py:76-114 | a cut run executes a prefix of that, so nothing at or after a mismatch |
| Migrations.BodiesRunOncePerTear | backend/src/app/persistence/postgres_migrations.py:105-114 | over any runs a body is executed once for its row and once per run cut between body and row, and never once the row exists |
| Migrations.UnchangedFilesNeverDrift | backend/src/app/persistence/postgres_migrations.py:80-104 | with unchanged files no run reports drift |
| Migrations.OneWholeRunSettles | backend/src/app/persistence/postgres_migrations.py:76-114 | after any cut runs one whole run is done and executes exactly the bodies not yet recorded |
| Migrations.SettledMeansApplied | backend/src/app/persistence/postgres_migrations.py:76-114 | from an empty database, after such a run every file has its checksum recorded and its body executed |
| Migrations.DoneMeansRecorded | backend/src/app/persistence/postgres_migrations.py:69-114 | a run that is done leaves every SQL file its checksum, from any ledger, rows without a checksum included, and with any number of statements |
| Migrations.BodiesRunInFilenameOrder | backend/src/app/persistence/postgres_migrations.py:28-36 | with one directory, over any runs, bodies are executed in that order of their names and the ledger is an initial part of the files |
| Base64Url.EncodeIsUnpadded | backend/src/app/security/checkout_reference.py:36-37 | no pad character is left, only letters, digits, hyphen and underscore, and the length is (4n + 2) / 3 |
| Base64Url.DecodeUndoesEncode | backend/src/app/security/checkout_reference.py:40-42 | decoding undoes encoding for every byte string |
| Base64Url.QuadIsTheNumber | backend/src/app/security/checkout_reference.py:36-37 | three bytes and their four characters are one 24-bit number, in the order of the URL-safe alphabet |
| PayloadJson.LoadsUndoesDumps | backend/src/app/security/checkout_reference.py:76-119 | reading a written object gives back its members for all keys, texts and numbers |
| Basics.StripIsTrimmed | backend/src/app/security/checkout_reference.py:45-49 | stripping removes all outer white space, and twice is once |
| CheckoutAcceptance.CreatedExactlyWhen | backend/src/app/security/checkout_reference.py:57-85 | a reference is created for exactly the valid Telegram ids, carries the trimmed internal id, and its proof is the digest of its id |
| CheckoutReference.VerifyUndoesCreate | backend/src/app/security/checkout_reference.py:57-154 | verifying a created reference returns user, normalized internal id and issue time exactly when it fits and the truncated age is in the window; otherwise which error |
| CheckoutAcceptance.AcceptedExactlyWhen | backend/src/app/security/checkout_reference.py:88-154 | for any id and proof, whoever made them: accepted with a payload if and only if both are in bounds, the proof is the digest of the trimmed id, and the id decodes to an object of schema version 1 that carries the payload, issued inside the window |
| CheckoutAcceptance.OtherProofIsInvalid | backend/src/app/security/checkout_reference.py:115-117 | an in-bounds proof that is another text than the digest is answered as invalid |
| CheckoutAcceptance.OutOfBoundsIsNamed | backend/src/app/security/checkout_reference.py:97-114 | out of bounds, which error |
| CheckoutReference.CreatedFitsExactlyWhen | backend/src/app/security/checkout_reference.py:109-110 | a created reference fits the length limit exactly when escaped internal id and Telegram digits come to at most 1439 characters |
| CheckoutReference.ConventionalIdsFit | backend/src/app/runtime/payment_fulfillment_ingress.py:313-315 | ids of the form u and number always fit |
| CheckoutReference.CreatedReferenceResolves | backend/src/app/runtime/payment_fulfillment_ingress.py:318-355 | a created reference resolves to its Telegram and internal user exactly under a configured secret that is not empty, the verifier's window, the payment time and the Telegram id condition |
| CheckoutAcceptance.ForgedReferenceIsRefused | backend/src/app/runtime/payment_fulfillment_ingress.py:318-339 | a payment that names a reference resolves only if a secret is configured and the proof is the digest under it |
| CheckoutAcceptance.NamedReferenceResolvesExactlyWhen | backend/src/app/runtime/payment_fulfillment_ingress.py:326-352 | of a verified reference: to which payer it resolves, exactly when the payment is at most 300 seconds early and no other Telegram id is named |
| CheckoutAcceptance.WithoutReference | backend/src/app/runtime/payment_fulfillment_ingress.py:324-355 | strict ingress refuses a payment without a reference, the other takes the Telegram id it names |
| ReferencePayments.ResolvedUserIsTakenExactlyWhen | backend/src/app/application/billing_ingestion.py:49-61 | of a payment by a created reference that resolves, ingest takes the user exactly when the internal id is absent or has at most 256 characters and no control character |
| ReferencePayments.ResolvesAndIsNeverPaid | backend/src/app/runtime/payment_fulfillment_ingress.py:318-355 | for every internal id length from 257 to 1420 a reference that resolves and whose payments no run answers 200 |

## Left out

- Wrapper modules, `*_main.py` argument and environment handling, Starlette routing, HTTP clients, pools, telemetry, log sanitising, allowlists, message texts: input, output and single-branch mappings.
- Request signature and staleness checks and the JSON body parser of the webhook: the billing model starts at a parsed payment with its period and identity.
- ADM-01 lookup, ADM-02 diagnostics, reconciliation run records and `live_loop.py` totals: sums and mappings that add only easy members.
- `postgres_issuance_state.py` provider-ref guard: its rejection has the effect of the fault before commit.
- Billing.BuildLedgerRecord: explicit fact refs, correlation ids and amounts are taken as well formed, because the webhook generates the former and sends no amount; a rejected one from another tool has the effect of the fault before commit.
- Texts are sequences of Unicode scalar values; lone surrogates, which the database refuses, are not modelled.
- Billing amounts and currencies: stored and returned, never read by the modelled code.
- Transactions are taken as atomic and serial; a concurrent first apply that loses on the primary key is the fault before commit.
- Retention under concurrent lockers (SKIP LOCKED) and Telegram retention deletes during a welcome run.
- Concurrent migration runners, and ledger rows written by anything else during a run.
- IssuanceSessions.RestartTransparency: single writer and a store that answers, because a second writer or a lost answer can change a reply's category (`LateInsertIsToldIssued`).
- IssuanceRevocation.TerminalRevocation: one execute at a time per instance, because two interleaved executes can re-sync an entry to ISSUED after a revoke.
- UpdateDedup.InMemoryTelegramUpdateDedupGuard.EvictOverflow: a negative max_entries, which raises on an empty map in the original, is not modelled.
- Polling.PollsDrainTheFeed: liveness only as a count of successful polls; fairness of the network is not modelled.
- EnsureAccess.EnsureAccessIssuesOnce: sequential calls; two at once may both be told ISSUED, see `LateInsertIsToldIssued`.
- Access.TelegramAccessResendHandler.Handle: the service and the repository are wired to one store, as in the composition; other wirings are not modelled.
- PayloadJson.Loads: white space, floats, nested values and lone surrogates read as not JSON; no created reference holds any.
- CheckoutReference.Verify: ASCII lower-casing of the proof and ASCII payload bytes only, and the age compared exactly where the original compares a float, which differs only beyond centuries.
- Calendar arithmetic: an ISO printer and parser that round-trip for the second at hand; years out of range are not modelled.
- HMAC and SHA-256: uninterpreted functions.
- The activation notice counts when its send is attempted; what Telegram does with it, and an ingress wired without a notifier, are not modelled.
