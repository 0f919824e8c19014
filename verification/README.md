# Claim processing, verified in Dafny

A model of the claim-processing pipeline of the repository and proofs about
it: the protocol that takes a claim from NEW to READY or REVIEW_REQUIRED
through a transactional outbox and an at-least-once queue, the exporters, the
pagers, the rate limiters, the webhook's attachment handling and the scan
keyword settings. `dafny verify dfyconfig.toml` checks everything.

## What is modelled

**The protocol** (`ClaimModel`, `Protocol`, `ProtocolInvariant`,
`ProtocolTheorems`, `ProtocolOutcomes`, `ProtocolProgress`, `DispatchLease`). `ClaimModel` has the
rows of one claim and every guarded write on them as a function. `Protocol`
interleaves those writes: any number of webhooks, retries, watchdogs,
operators, dispatchers, workers and dashboard clicks run at once, each
remembering only what it read. Every `$transaction` and every single
`updateMany` is one atomic step. Between two steps of a process anything may
happen: other processes, time, a crash, a second delivery of any message ever
sent, an unparsable message, a claim edit, an outbox cleanup. A send or a
dead-letter publish may be refused, accepted, or accepted with its reply lost.
The theorems quantify over all reachable states or all runs. `history`,
`sent`, `deletions`, `recoveries` and `okSends` are history variables; lemmas
tie `history` and `deletions` to the tables they record.

Assumptions: generated identifiers are fresh, the clock does not go back, and
every claim update sets `updatedAt` to the clock (a recovery sets it to the
time its process captured). Two workers may process one attempt at the same
time: redelivered messages share a token, and a failing worker may release
another's lease. Mutual exclusion of workers is therefore not claimed; at most
one outcome per claim is, and that a second worker takes the lease under one
message only after it was given back (`LeaseIsExclusive`).

**The procedures** (`ProcessPaths`, `HandlerPaths`, `ClaimSystem`,
`ClaimRequests`). The same writes as methods of a class that updates the tables
and the queue in place, statement by statement as in the repository. Other
processes run between any two awaited calls: `others(k)` is what they have made
of the shared state by the time the k-th call takes effect, and `fate(k)` says
whether that call throws; both are arbitrary. Every method that is a process,
or part of one, is proved to follow the protocol's automaton through those
states (`Came`), and its contract says what its answer means for the path it
took. `HandlerPaths` has the whole path of a received message as a function,
and theorems about it. `InterleavedIsRun` turns a path, with the steps of the
others between, into a run of the whole system: the order of effects in the
code is the order the theorems speak of.

**One dispatcher run** (`OutboxBatches`): the batch loop, which rows each batch
selects, and the tallies, over the rows of all claims.

**Exports** (`ExportReader`, `ExportCsv`): the prefetching batch reader with
its interacting fields, both streamers, and a quote-aware CSV reader (section
2 of RFC 4180, with LF alone ending a record and CR as data).

**Pagination** (`Pagination`, `CursorCodec`, `CursorWalk`): the cursor
predicates as the SQL writes them, the three error orders and the dashboard's,
pages, cursors and their text form, and walks that follow either. Id order is
an arbitrary ranking of ids.

**Rate limiters** (`RateLimit`, and `RateLimitKeys` for calls on many keys),
**the worker pool** (`ConcurrentMap`), **attachments** (`Attachments`), **scan
keywords** (`Keywords`).

## Results about the code worth knowing

- The most calls the fixed-window limiter allows in a window's length is
  `2 * limit - 1`; it is `limit` when the window is one millisecond long, and
  none when limit or window is not positive. For every limit and window a run
  reaches that number (`FixedBound`, `FixedBoundIsReached`). After a denial,
  waiting `retryAfterSeconds` helps exactly when the limit is positive.
- A cursor survives its text form exactly when its id is non-empty, trimmed
  and free of `~` (`CursorRoundTrip`).
- A claim with an inbound message can still be decided exactly when it is not
  in ERROR after a non-retryable failure (`DecidableUnlessFatal`).
- Of two workers that take the lease of one attempt, the second does so only
  after a release in between (`LeaseIsExclusive`).
- Without a bound on a dispatcher's delay, a row can be sent once more exactly
  when it is in the outbox undispatched or a dispatcher holds it, about to
  send (`CanBeSentIff`), and an undispatched row any number of times
  (`SendsWithoutBound`). With the bound each row is sent at most once
  (`SentAtMostOnce`).
- Within one dispatcher run a row is selected again by the next batch exactly
  when its send failed and its lease was given back (`SelectedAgainIff`). So a
  run takes no row twice exactly when no batch but its last gives a lease back
  (`TakenTwiceIff`); the rows behind a row that keeps failing may wait.
- A request can find the row it has just committed gone, and throw, only after
  the row's message reached the queue (`DisappearedRowWasSent`).
- The worker's keyword pass is the identity exactly on lists of few, distinct,
  normal, short keywords (`WorkerFixesUsable`). It is idempotent on a list
  exactly when cutting at 80 units leaves no new keyword with a trailing space
  (`WorkerIdempotentIff`); `WorkerNotIdempotent` is a value where it does.

## Model

| member | source | states |
|---|---|---|
| ProtocolInvariant.StepInv | packages/db/src/claim-processing.ts:20-133 | Every enabled step of the environment or of any process keeps the whole invariant and only grows the history. |
| ProtocolTheorems.ExactlyOneExtraction | apps/worker/src/claim-state.ts:132-230 | In every reachable state a claim has at most one extraction, and exactly one iff it is READY or REVIEW_REQUIRED. |
| ProtocolTheorems.StaleMessageInert | apps/worker/src/queue-disposition.ts:54-191 | Once a sent message is behind the claim's attempt, no action of a process handling it, on the success or the failure path, changes the database in any later state. |
| ProtocolTheorems.NotUnderInert | apps/worker/src/ingest-job.ts:159-229 | A worker's action changes the database only while the claim is being processed under its message's attempt and token. |
| ProtocolTheorems.DecidedIsAbsorbing | apps/web/lib/claims/review.ts:150-186 | From READY or REVIEW_REQUIRED every run stays in the pair, with the same extraction and attempt. |
| ProtocolTheorems.ClickOnlyOverDecided | apps/web/lib/claims/review.ts:150-186 | A dashboard click that is pending after a stale read still finds the claim decided, so its unguarded write keeps it decided. |
| ProtocolTheorems.MessagesNeverAhead | packages/db/src/claim-processing.ts:35-71 | Every sent message's attempt was opened, and at the attempt being processed it carries the claim's token. |
| ProtocolTheorems.GuardBranchesUnreachable | apps/worker/src/ingest-job.ts:174-201 | The branches "still NEW", "has not advanced" and "lease superseded" are taken in no run. |
| ProtocolTheorems.AttemptConservation | packages/db/src/claim-processing.ts:33-71 | The attempt counter equals the rows ever created and the events into PROCESSING; one row per attempt; PROCESSING iff the token is set. |
| ProtocolTheorems.HistoryRecordsRows | packages/db/src/claim-ingest-queue-outbox.ts:136-161 | A step creates an outbox row exactly when the history grows by that row, which carries the new attempt and the claim's token. |
| ProtocolTheorems.OneOpeningPerSnapshot | apps/web/lib/claims/retry.ts:99-132 | Of all starts and recoveries working on one snapshot or an older one, none opens an attempt after the first has. |
| ProtocolTheorems.NoAttemptDropped | packages/db/src/claim-ingest-queue-outbox.ts:297-379 | While attempt k is processed, its undispatched row is in the outbox or its message reached the queue. |
| ProtocolTheorems.UndispatchedRowsStay | packages/db/src/claim-ingest-queue-outbox.ts:487-528 | No step, cleanup included, removes an undispatched row. |
| ProtocolTheorems.DispatchedAtIsFinal | packages/db/src/claim-ingest-queue-outbox.ts:340-361 | Once set, `dispatchedAt` never changes over any run while the row exists, and its message was sent. |
| ProtocolTheorems.LateHolderIsFenced | packages/db/src/claim-ingest-queue-outbox.ts:557-581 | A dispatcher whose row lease was lost can neither mark nor clear the row, however late it writes. |
| ProtocolTheorems.DeletedOnlyWhenSafe | apps/worker/src/queue-disposition.ts:68-155 | Failure handling deleted a message only with its copy in the dead-letter queue, or non-retryable with none configured; if it parsed, the claim is not processed under it now. |
| ProtocolTheorems.DeletionsAreLogged | apps/worker/src/queue-disposition.ts:193-204 | A message leaves the queue only in a step that records its deletion. |
| ProtocolTheorems.LogAgrees | packages/db/src/claim-status.ts:14-31 | The newest event's target is the claim's status, and events chain up to and including the first decided one, after which all stay in the pair. |
| ProtocolTheorems.RecoveryAdvancesUpdatedAt | packages/db/src/claim-processing.ts:92-110 | Every recovery strictly increases `updatedAt`. |
| ProtocolTheorems.RecoveriesAreSpaced | apps/worker/src/processing-watchdog.ts:66-87 | Any two recoveries' captured times are a stale period apart, so at most floor(T/S) + 1 fit in a span T. |
| ProtocolOutcomes.DecisionFollowsExtraction | apps/worker/src/claim-state.ts:136-180 | In every reachable state with an extraction, the first event that decides the claim is the worker's, and goes to READY if the extraction reaches the threshold and misses nothing, else to REVIEW_REQUIRED. |
| ProtocolOutcomes.ErrorIsWarranted | apps/worker/src/queue-disposition.ts:68-69 | In every reachable state a claim in ERROR has a failure that is non-retryable or whose message was received `maxReceiveCount` times; so has every handler about to mark one. |
| ProtocolOutcomes.FailureIsRecordedAsThrown | apps/worker/src/queue-disposition.ts:68-155 | From a throw to the mark, whatever happens between: when the message is condemned, on the inputs, and that the claim then records the thrown retryability, the receive count and the disposition. |
| ProtocolOutcomes.TakingTakes | apps/worker/src/ingest-job.ts:354-378 | A worker goes on to extract iff status, attempt and token match and nobody has the lease, and then the lease is taken. |
| ProtocolOutcomes.LeaseIsExclusive | apps/worker/src/ingest-job.ts:354-378 | In every run, of two workers that take the lease under one message, the second does so only after a lease taken under it was given back in between. |
| ProtocolOutcomes.ReleasedIsFree | apps/worker/src/claim-state.ts:99-130 | After a release under the message its next delivery takes the lease and goes on to extract. |
| ProtocolProgress.AlwaysRecoverable | apps/worker/src/processing-watchdog.ts:153-220 | From every reachable state being processed, new or retryable, with an inbound message, and for every extraction, a run exists that persists exactly that extraction, also after the lease holder crashed and its message was deleted. |
| ProtocolProgress.DecidableUnlessFatal | apps/web/lib/claims/retry.ts:74-90 | A claim with an inbound message can still be decided iff it is not in ERROR after a non-retryable failure. |
| ProtocolProgress.ErrorIsFinal | apps/web/lib/claims/retry.ts:74-84 | No run leads out of ERROR after a non-retryable failure. |
| ProtocolProgress.CanBeSentIff | packages/db/src/claim-ingest-queue-outbox.ts:288-361 | Some continuation sends a row successfully once more iff the row is in the outbox undispatched or a dispatcher holds its lease, about to send. |
| ProtocolProgress.SendsWithoutBound | packages/db/src/claim-ingest-queue-outbox.ts:288-361 | For every n, a run from a state with the row undispatched raises its successful sends by n and leaves it undispatched. |
| ProtocolProgress.SlowDispatcherSendsTwice | packages/db/src/claim-ingest-queue-outbox.ts:288-361 | So from any initial state a run exists in which one row is sent successfully twice, its first dispatcher marking too late. |
| DispatchLease.SentAtMostOnce | packages/db/src/claim-ingest-queue-outbox.ts:288-361 | When every lease holder acts before its captured time plus the timeout and none dies between send and mark, each row is sent successfully at most once and has at most one holder. |
| DispatchLease.NoHolderOnLeasableRow | packages/db/src/claim-ingest-queue-outbox.ts:294-326 | While a timely holder's lease runs, no other dispatcher can lease its row. |
| ProcessPaths.InterleavedIsRun | apps/worker/src/queue-handler.ts:52-140 | A path of one process, as the methods below follow it, with any steps of others between its actions, is a run of the whole system that ends where the path says. |
| HandlerPaths.HealthyMessageIsProcessed | apps/worker/src/queue-handler.ts:94-111 | A message whose claim is free for it when read and when leased, whose extraction succeeds and none of whose calls throws, is parsed, read, leased, persisted with exactly that extraction, and deleted. |
| HandlerPaths.DisposesIff | apps/worker/src/queue-handler.ts:68-139 | The failure handling runs iff the body does not parse, a call of the job or its delete threw, or the job raised over the claim it read; every other message's last action is its delete. |
| HandlerPaths.EveryCallCounts | apps/worker/src/queue-handler.ts:68-139 | Every effect on the path needs a call that returned, and the handler gives up on the job only where a call threw, the lookup failed or the extraction did, with the retryability of that error. |
| HandlerPaths.StopsOnlyWhenThrown | apps/worker/src/queue-disposition.ts:92-155 | The handler stops before its end only where a call of the failure handling throws. |
| ClaimSystem.System.StartClaimProcessingAttemptIfCurrent | packages/db/src/claim-processing.ts:20-71 | Compare-and-set on status and attempt: the whole new row and one event, or nothing. |
| ClaimSystem.System.RecordProcessingRecoveryIfStale | packages/db/src/claim-processing.ts:74-133 | Compare-and-set on status, attempt and staleness: the whole new row and one event, or nothing. |
| ClaimSystem.System.StartAttemptTransaction | apps/web/lib/claims/ingest.ts:103-141 | Attempt, event and outbox row together are the protocol's commit step of a starter. |
| ClaimSystem.System.RecoverAttemptTransaction | apps/worker/src/processing-watchdog.ts:185-222 | Attempt, event and outbox row together are the protocol's commit step of a recoverer. |
| ClaimSystem.System.ClaimProcessingLeaseClaimedByWorker | apps/worker/src/ingest-job.ts:354-378 | Takes the lease iff status, attempt and token match and none is held: the claim with its lease set to the clock, or as it was. |
| ClaimSystem.System.ReleaseClaimProcessingLease | apps/worker/src/claim-state.ts:99-130 | Clears a held lease of exactly this attempt and token, and nothing else. |
| ClaimSystem.System.PersistClaimExtractionOutcome | apps/worker/src/claim-state.ts:132-230 | Fenced by status, attempt and token: READY iff the extraction reaches the threshold and misses nothing, else REVIEW_REQUIRED, with the event and the extraction; or nothing. |
| ClaimSystem.System.MarkClaimAsError | apps/worker/src/claim-state.ts:36-97 | Fenced by status, attempt and token: ERROR, failure and event together, or nothing. |
| ClaimSystem.System.DispatchClaimIngestQueueOutboxRecord | packages/db/src/claim-ingest-queue-outbox.ts:276-379 | Whatever others do before each call and whichever call throws: dispatched iff the row's message was sent and acknowledged, failed iff sent without that, unavailable iff the lease attempt was all; `persisted` iff the mark found the row still held. |
| ClaimSystem.System.DispatchClaimIngestQueueOutboxById | packages/db/src/claim-ingest-queue-outbox.ts:232-274 | Not found, already dispatched, or the dispatch of the row as it was read, whose lease another may have taken since. |
| ClaimSystem.System.ProcessClaimIngestJob | apps/worker/src/ingest-job.ts:57-229 | Read, lease claim and persist each see what others left: how the job ends for every lookup, guard, lost lease race, extraction and throwing call, as a path of the worker automaton with exactly the given extraction persisted. |
| ClaimSystem.System.MoveMessageToDlq | apps/worker/src/queue-disposition.ts:206-264 | Reports success only with the copy in the dead-letter queue. |
| ClaimSystem.System.MarkFailedClaim | apps/worker/src/queue-disposition.ts:98-109 | A claim processed under the message when the mark runs is left in ERROR with exactly this failure; any other claim is left as it is. |
| ClaimSystem.System.HandleQueueProcessingFailure | apps/worker/src/queue-disposition.ts:54-191 | Publish, mark, delete, or give the lease back, in the automaton's order between the steps of others; retrying iff neither final case applies, on the inputs; and where the handler stops when a call throws. |
| ClaimSystem.System.HandleClaimQueueMessage | apps/worker/src/queue-handler.ts:52-140 | One received message from parse to delete between the steps of others: nothing without a receipt handle; a healthy one is processed and gone from the queue; it is failed iff it does not parse or the job or its delete failed; every call's outcome is heeded. |
| ClaimRequests.MaybeEnqueueClaimForProcessing | apps/web/lib/claims/ingest.ts:58-192 | The exact answer on the inputs: unscheduled iff the claim was not NEW when read or the race for it was lost; scheduled and not deferred iff this request opened the attempt and its message was sent and acknowledged; else deferred, or thrown. |
| ClaimRequests.RetryErroredClaim | apps/web/lib/claims/retry.ts:24-202 | The exact answer on the claim as read, as the transaction finds it, and as a loser reads it again; the transaction won iff the history grew by this request's attempt. |
| ClaimRequests.RecoverStaleProcessingClaim | apps/web/lib/claims/processing-recovery.ts:25-200 | The same for a manual recovery, fenced by attempt and staleness. |
| ClaimRequests.RecoverSingleStaleProcessingClaim | apps/worker/src/processing-watchdog.ts:153-315 | Each scanned claim is counted once: skipped iff it has no inbound message or the race was lost, recovered iff the transaction won and the dispatch did not throw, failed otherwise. |
| ClaimRequests.TransitionDashboardClaimStatus | apps/web/lib/claims/review.ts:124-196 | Answers by the claim as read; an update is the protocol's unguarded click step in whatever state others have left by then. |
| ClaimRequests.DisappearedRowWasSent | apps/web/lib/claims/ingest.ts:172-174 | In every run after an opening commit, if the new row is gone its message has reached the queue. |
| ClaimRequests.LoserSeesTheWinner | apps/web/lib/claims/retry.ts:181-202 | A loser that reads the claim again finds success iff it is PROCESSING and the attempt it asked for was opened; then its own transaction no longer matches. |
| ClaimRequests.EveryLoserSucceeds | apps/web/lib/claims/retry.ts:181-202 | In every run, a request that read a claim outside PROCESSING, lost the race and finds it PROCESSING answers success. |
| OutboxBatches.OutboxTable.DispatchPendingClaimIngestQueueOutbox | packages/db/src/claim-ingest-queue-outbox.ts:381-485 | The loop's rows and tallies are those of the first n batches, all full but the last; n is the batch limit or the first that selects too few or none. The rows below say what that means. |
| OutboxBatches.OutboxTable.DispatchBatch | packages/db/src/claim-ingest-queue-outbox.ts:439-480 | Exactly the selected rows change, each by its own outcome, and every one is counted once. |
| OutboxBatches.ShortSelection | packages/db/src/claim-ingest-queue-outbox.ts:414-435 | A selection shorter than the batch size holds every leasable row. |
| OutboxBatches.SelectedIff | packages/db/src/claim-ingest-queue-outbox.ts:414-435 | A row is selected iff it is leasable and fewer leasable rows than the batch size come before it. |
| OutboxBatches.WritesAgree | packages/db/src/claim-ingest-queue-outbox.ts:288-375 | What a dispatch attempt makes of its row is what the protocol's lease, mark and clear make of it. |
| OutboxBatches.SelectedAgainIff | packages/db/src/claim-ingest-queue-outbox.ts:412-480 | A row selected in a batch is selected by the next iff its send failed and its lease was given back. |
| OutboxBatches.SelectedLaterIff | packages/db/src/claim-ingest-queue-outbox.ts:412-480 | A row selected in a batch is selected in a later one iff every batch from the first on gave its lease back. |
| OutboxBatches.TakenTwiceIff | packages/db/src/claim-ingest-queue-outbox.ts:412-480 | Some row is taken twice in a run iff a batch before the last gives a lease back. |
| OutboxBatches.TalliesAddUp | packages/db/src/claim-ingest-queue-outbox.ts:404-485 | Each tally counts exactly its outcomes; they add up to the selections, at most batch size times batches. |
| OutboxBatches.LeasableConserved | packages/db/src/claim-ingest-queue-outbox.ts:412-480 | Each selection uses up one leasable row unless it gives its lease back. |
| OutboxBatches.UndispatchedConserved | packages/db/src/claim-ingest-queue-outbox.ts:412-480 | Each marked selection is one undispatched row less, and nothing else changes their number. |
| OutboxBatches.EarlyStopLeavesCleared | packages/db/src/claim-ingest-queue-outbox.ts:424-485 | A run that stops before its batch limit leaves leasable only rows whose lease its last batch gave back. |
| OutboxBatches.RunsOnce | packages/db/src/claim-ingest-queue-outbox.ts:412-485 | The number of batches of a run is determined. |
| ExportReader.FetchContinues | apps/web/lib/claims/export-route.ts:493-534 | A fetch after the cursor of row i - 1 returns the rows from i on: the cursor predicate is exact in the export order. |
| ExportReader.CursorIsExact | apps/web/lib/claims/export-route.ts:506-526 | The cursor predicate keeps exactly the rows behind the cursor's row in the order createdAt, id, both descending. |
| ExportReader.ExportBatchReader.EnsureBatchLoaded | apps/web/lib/claims/export-route.ts:426-452 | Loads only prefetched batches, judged by the `take` they were requested with; an empty batch afterwards means the first `limit` rows are exhausted. |
| ExportReader.ExportBatchReader.ReadNextRows | apps/web/lib/claims/export-route.ts:411-424 | Returns the next rows of the first `limit` in order, and none iff they are exhausted. |
| ExportReader.StreamCsv | apps/web/lib/claims/export-route.ts:267-332 | For every chunk and batch size the chunks concatenate to the header and one line per row, with the right count. |
| ExportReader.StreamJson | apps/web/lib/claims/export-route.ts:334-398 | For every chunk and batch size the chunks concatenate to the prefix, the comma-joined rows and the suffix with the right count. |
| ExportReader.JsonChunkExtends | apps/web/lib/claims/export-route.ts:374-394 | A chunk with its leading comma extends a comma-joined list by its rows. |
| ExportCsv.FieldReadsBack | apps/web/lib/claims/export-route.ts:258-265 | The CSV reader collects from any escaped value exactly its text, null as empty. |
| ExportCsv.DocumentReadsBack | apps/web/lib/claims/export-route.ts:472-491 | Header and lines parse back to the header's names and every row's fields. |
| ExportCsv.NamesStandOverFields | apps/web/lib/claims/export-route.ts:472-491 | Each of the header's names stands over its own field of every exported claim. |
| ExportCsv.ExportCsvText | apps/web/lib/claims/export-route.ts:267-332 | The streamed CSV of any table parses back to the header and the first min(limit, n) rows, whatever the batch and chunk sizes. |
| Pagination.Trichotomy | apps/web/lib/claims/error-claims.ts:410-434 | Each of the four orders is total: two rows are tied, or exactly one comes first. |
| Pagination.OrdersAre | apps/web/lib/claims/error-claims.ts:210-212 | The orders in terms of the rows: one without a failure sorts behind every receive count, and by age as if it had failed at its last update. |
| Pagination.CursorIsExact | apps/web/lib/claims/error-claims.ts:313-408 | For every sort and direction the SQL cursor predicate holds iff the row sorts strictly after the cursor's row. |
| Pagination.AnyCursorIsExact | apps/web/lib/claims/cursor-pagination.ts:41-86 | The same for a cursor whose row may be gone. |
| Pagination.BackwardReverses | apps/web/lib/claims/error-claims.ts:410-434 | The backward order is exactly the forward order reversed. |
| Pagination.ReverseIsSorted | apps/web/lib/claims/error-claims.ts:410-434 | The table reversed is the result of the backward ordering. |
| Pagination.SortedIsUnique | apps/web/lib/claims/error-claims.ts:410-434 | An ordering of a set of rows has one result. |
| Pagination.ForwardPage | apps/web/lib/claims/error-claims.ts:80-149 | For every table and position the pager's page is the rows from there, with exactly the cursors that have rows before and behind them. |
| Pagination.BackwardPage | apps/web/lib/claims/dashboard-claims.ts:97-157 | For every position the backward pager's page is the rows before it, in forward order, with exactly the cursors that have rows before and behind them. |
| Pagination.PrevAfterNext | apps/web/lib/claims/error-claims.ts:454-490 | Going back from the next page returns the first page itself: its rows and both its cursors. |
| Pagination.WalkVisitsAll | apps/web/lib/claims/dashboard-claims.ts:97-157 | Following next cursors from the start visits every row exactly once, in order, in ceil(n/p) pages. |
| Pagination.WalkEnds | apps/web/lib/claims/error-claims.ts:454-490 | Following next cursors always comes to an end. |
| Pagination.PageCountIsCeiling | apps/web/lib/claims/dashboard-claims.ts:97-157 | The page count is the least number of pages that holds all rows. |
| CursorCodec.CursorRoundTrip | apps/web/lib/claims/error-claims.ts:502-613 | Under its own sort a cursor parses back to itself iff its id is non-empty, trimmed and free of `~`. |
| CursorCodec.ShowIntReadsBack | apps/web/lib/claims/error-claims.ts:525-552 | A printed receive count parses back to itself and contains no separator. |
| CursorWalk.TextWalkIsWalk | apps/web/lib/claims/error-claims.ts:502-613 | On a table of ids that survive the codec, following the text cursors visits the same pages as following the cursors themselves. |
| CursorWalk.TextWalkVisitsAll | apps/web/lib/claims/error-claims.ts:502-613 | A walk over encoded and parsed cursors visits every row once, in order, in ceil(n/p) pages. |
| RateLimit.InMemorySlidingWindowRateLimiter.Check | apps/web/lib/security/rate-limit.ts:31-56 | The decision and the new attempts of the key; other keys are untouched. |
| RateLimit.SlidingBound | apps/web/lib/security/rate-limit.ts:31-56 | In every run any interval (t - W, t] holds at most `limit` allowed calls. |
| RateLimit.SlidingExact | apps/web/lib/security/rate-limit.ts:31-56 | After any run a call is allowed iff fewer than `limit` allowed calls lie in the window ending with it. |
| RateLimit.SlidingRetryAfter | apps/web/lib/security/rate-limit.ts:38-47 | After a denial a call `retryAfterSeconds` later is allowed iff the limit is positive. |
| RateLimit.SlidingRetryIsLeast | apps/web/lib/security/rate-limit.ts:38-47 | After a denial every call before the reset time is denied, and so is one a second short of the announced wait, when that is more than one second. |
| RateLimit.SlidingAllowance | apps/web/lib/security/rate-limit.ts:49-56 | An allowed call is told how many more its window takes, and when the oldest call it counts leaves it. |
| RateLimit.DatabaseFixedWindowRateLimiter.Check | apps/web/lib/security/rate-limit.ts:66-130 | The upserted bucket and the decision taken from it; other keys are untouched. |
| RateLimit.FixedBound | apps/web/lib/security/rate-limit.ts:66-130 | In every run any interval (t - W, t] holds at most 2 * limit - 1 allowed calls; at most limit when W is 1, none when limit or W is not positive. |
| RateLimit.FixedBoundIsReached | apps/web/lib/security/rate-limit.ts:66-130 | For every limit and window a run and an interval reach that bound exactly. |
| RateLimit.FixedExact | apps/web/lib/security/rate-limit.ts:92-108 | After any run a call is allowed iff fewer than `limit` calls were allowed in the window it falls in. |
| RateLimit.FixedRetryAfter | apps/web/lib/security/rate-limit.ts:114-124 | After a denial a call `retryAfterSeconds` later is allowed iff the limit is positive. |
| RateLimit.FixedRetryIsLeast | apps/web/lib/security/rate-limit.ts:114-124 | The same least wait for the fixed window. |
| RateLimit.FixedAllowance | apps/web/lib/security/rate-limit.ts:114-130 | An allowed call is told how many more its window takes, and when that window ends. |
| RateLimitKeys.CheckAllSliding | apps/web/lib/security/rate-limit.ts:31-56 | Calls on any mix of keys: each is answered, and each key's attempts end, as if its own calls had been the only ones. |
| RateLimitKeys.SlidingBoundOnEachKey | apps/web/lib/security/rate-limit.ts:31-56 | In every mixed run each key has at most `limit` allowed calls in any window. |
| RateLimitKeys.CheckAllFixed | apps/web/lib/security/rate-limit.ts:66-130 | The same for the buckets of the database limiter. |
| RateLimitKeys.FixedBoundOnEachKey | apps/web/lib/security/rate-limit.ts:66-130 | In every mixed run each key stays within the fixed-window bound. |
| ConcurrentMap.CalledInOrderOnceWithinBound | apps/web/lib/postmark/inbound-webhook.ts:1045-1072 | In every interleaving the mapper is called on 0, 1, 2, ... each at most once, with at most the clamped concurrency in flight. |
| ConcurrentMap.CompletedMapsAll | apps/worker/src/processing-watchdog.ts:322-350 | When all workers have exited every index was mapped once, each result sits at its item's index, and the values returned are those, in some order. |
| ConcurrentMap.SurvivorsFinish | packages/db/src/claim-ingest-queue-outbox.ts:612-634 | A throwing call breaks its own worker only: while one worker survives all items are mapped, and the missing results are exactly the thrown ones. |
| ConcurrentMap.AlwaysSettles | packages/db/src/claim-ingest-queue-outbox.ts:612-634 | Every run has at most 2n + k steps and is stuck only when all workers have returned or thrown. |
| ConcurrentMap.WorkerCountIs | apps/web/lib/postmark/inbound-webhook.ts:1054-1055 | The number of workers is the greatest that exceeds neither the items nor the concurrency, one where that is below two. |
| Attachments.StagesAgree | apps/web/lib/postmark/inbound-webhook.ts:722-787 | Policy, preparation and write stages, composed as in the webhook, reject, lose and write what a one-attachment-at-a-time reference says, with the failures sorted by index. |
| Attachments.ReportConserves | apps/web/lib/postmark/inbound-webhook.ts:641-697 | received = stored + failed, and the errors name each failed attachment exactly once in ascending index order. |
| Attachments.StoredIsWithinPolicy | apps/web/lib/postmark/inbound-webhook.ts:857-868 | A row is stored iff count, sizes, type and total are within the policy, its content decodes, and neither scan, upload nor insert failed it. |
| Attachments.ReasonIsTrue | apps/web/lib/postmark/inbound-webhook.ts:733-945 | Whatever reason a failed row gives holds of its attachment. |
| Attachments.TotalBytesAdds | apps/web/lib/postmark/inbound-webhook.ts:729-732 | The total is additive over concatenation and the size of a single attachment. |
| Attachments.ClaimAttachments.PersistFailedAttachmentRows | apps/web/lib/postmark/inbound-webhook.ts:968-989 | The rows written, in one insert or one by one, also when some throw. |
| Attachments.ClaimAttachments.PersistStoredAttachmentRows | apps/web/lib/postmark/inbound-webhook.ts:991-1043 | The rows written and the failures returned when single inserts fail and fall back to failed rows. |
| Attachments.ClaimAttachments.PersistAttachments | apps/web/lib/postmark/inbound-webhook.ts:617-697 | Returns a report iff nothing throws; then the report is the reference's and every received attachment has left exactly one row. |
| Attachments.PoolPrepares | apps/web/lib/postmark/inbound-webhook.ts:655-671 | Whatever the pool's interleaving, its results are the prepared candidates in input order. |
| Attachments.SortPermutes | apps/web/lib/postmark/inbound-webhook.ts:684-687 | Sorting by index loses and adds nothing. |
| Keywords.NormalizeKeepsWords | apps/web/lib/extraction/settings.ts:151-161 | Normalising gives exactly the words between blanks and control characters, joined by single spaces. |
| Keywords.NormalIsFixed | apps/web/lib/extraction/settings.ts:151-161 | A text is unchanged iff it is empty or in normal form. |
| Keywords.NormalizedIsVisible | apps/web/lib/extraction/settings.ts:151-161 | Normalising leaves no unit below the space and no delete character. |
| Keywords.OneOfEachKey | apps/web/lib/extraction/settings.ts:123-140 | Removing duplicates keeps one keyword of each key and no key twice. |
| Keywords.ParseScanKeywordsText | apps/web/lib/extraction/settings.ts:117-149 | The loop accepts the first occurrences of the normalised pieces, or gives the error of the first failing check. |
| Keywords.NormalizeConfiguredScanKeywords | apps/worker/src/extraction.ts:353-375 | The worker's loop gives the first occurrences of the cut, normalised first 75 values. |
| Keywords.PrintedReadsBack | apps/web/app/dashboard/settings/extraction/extraction-settings-page.tsx:67 | A list printed one a line parses back to itself iff it is storable. |
| Keywords.JoinedReadsBack | apps/web/lib/extraction/settings.ts:117-149 | A list joined by line ends, or by commas, parses back to itself iff it is storable. |
| Keywords.RefusedIff | apps/web/lib/extraction/settings.ts:123-149 | A text is refused as too long iff some normalised piece exceeds 80 units, and else as too many iff more than 75 keywords remain without duplicates. |
| Keywords.WorkerFixesUsable | apps/worker/src/extraction.ts:353-375 | The worker leaves a list unchanged iff it is at most 75 distinct normal keywords of at most 80 units. |
| Keywords.WorkerIdempotentIff | apps/worker/src/extraction.ts:353-375 | Two passes equal one iff no value among the first 75 normalises to more than 80 units with a space as the 80th and a cut whose key is new. |
| Keywords.WorkerNotIdempotent | apps/worker/src/extraction.ts:358-364 | One such value: two passes of the worker differ from one. |
| Keywords.AcceptedIsFixedPoint | apps/web/lib/extraction/settings.ts:117-149 | For every accepted text, re-parsing the printed keywords and the worker's pass change nothing. |
| Keywords.OrganizationExtractionSettings.Update | apps/web/lib/extraction/settings.ts:66-115 | List and audit event change together or not at all; saving the page as printed is always "no changes". |

## Left out

- ClaimSystem.System.HandleClaimQueueMessage: a call that throws has had no
  effect, except that a send or a dead-letter publish may have been accepted;
  a write or a delete whose reply alone is lost is not modelled.
- Messages of other claims, and parsed messages that no outbox row produced.
- ProtocolTheorems.LogAgrees: says nothing of the exact `fromStatus` after the
  first decided event; concurrent clicks may record a stale one.
- ProtocolTheorems.RecoveriesAreSpaced: for mixed stale periods the count uses
  the smallest of them.
- ClaimRequests.RetryErroredClaim: the claim exists when it is read again;
  ClaimRequests.RecoverStaleProcessingClaim likewise.
- DispatchLease.SentAtMostOnce: a dispatcher that dies between a successful
  send and its marking write is excluded, as is one slower than its lease.
- OutboxBatches.OutboxTable.DispatchPendingClaimIngestQueueOutbox: one lease
  token stands for the fresh one of each row, another dispatcher interferes
  only by leasing a selected row first, and a call that throws is left out.
- OutboxBatches: the workers of a batch run one after another; `ConcurrentMap`
  covers their interleaving.
- ConcurrentMap.CompletedMapsAll: concurrency is a real number; NaN and
  infinities are not modelled.
- Attachments.ClaimAttachments.PersistAttachments: rows are inserted in index
  order, and the 2048-character cut of stored error messages, object keys,
  checksums and retention dates are left out.
- ExportReader.StreamCsv: a fetch that fails in the middle of a stream, and
  the consumer's cancellation.
- ExportCsv.ExportCsvText: dates are given as text; their formatting is not
  modelled.
- ExportReader.StreamJson: a row's JSON text is given.
- Pagination.WalkVisitsAll: the table does not change between pages; filters
  are one fixed predicate already applied to it.
- CursorCodec.CursorRoundTrip: dates are an arbitrary invertible text form
  free of `~`; receive counts are unbounded integers.
- RateLimit.SlidingBound: limit and window are fixed for a key and times do
  not decrease; RateLimit.FixedBound likewise.
- Keywords.AcceptedIsFixedPoint: `toLowerCase` is an arbitrary function.
- Delays of messages (`availableAt`), visibility extension, the text of
  reasons and errors, Sentry and log output.
- The merge of extracted fields into the claim, the Textract fallback and the
  choice between two extractions.
- CIDR matching of webhook addresses, signatures, sessions, health routes,
  summary counters, caches and data retention: easy or resting on libraries.
