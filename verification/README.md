# Verification of the webhook delivery engine

This project models the durable delivery engine of the webhooks service in Dafny
and proves its central promises: a PostgreSQL-backed queue shared by any number
of dispatcher workers, the retry arithmetic that decides when a delivery stops,
the cursors that page through a table in motion, and the one-shot import of the
old queue. `dafny verify dfyconfig.toml` checks all of it.

## How it is built

| file | what it holds |
|---|---|
| `Clock`, `Int64`, `Backoff`, `Attempt` | instants and 64-bit durations; the exponential policy with its two loops; the classification of an HTTP attempt and the wait before the next one |
| `Keyset` | `ORDER BY`, `LIMIT` and cursors over (timestamp, id), and walks whose table changes between pages |
| `Tables`, `Transactions` | the four tables and every store transaction as a function of the tables, the clock and the arguments |
| `Effects`, `ImportEffects` | what each transaction and each import does to the columns of the tables, stated without the functions of `Transactions` and `Backfill` |
| `Store`, `Dispatcher`, `BackfillCommand`, `ReplayHandler` (methods) | the imperative code: methods that change the tables in place, proved to compute those functions |
| `Protocol` | the engine as a state machine: tables, one monotone clock, every claim ever handed to a worker (a lease), and 18 kinds of atomic step; a run is any sequence of steps |
| `Invariants`, `Lifecycle`, `Fencing`, `Reachable` | the inductive invariant and its proof, step by step |
| `FencingResults`, `CallBounds`, `Overtaking`, `Outcomes`, `Idempotency`, `Walks` | what holds of every run |
| `Answers` | from a claim and the endpoint's answer to the delivery and the attempt on record |
| `Backfill`, `BackfillCommand` | the import, the exact condition for its loop to end |
| `Upgrade` | the engine starting from what the import leaves, and the import running again after the engine |
| `ReplayHandler` | request completion and cursor checks of the bulk replay route, and the client that follows its tokens |
| `Scenarios` | small runs and tables that meet the conditions under which a promise fails |

A crash is a lease that ends without settling its row. Leases are never
forgotten, so properties of workers that lost their claim, and of calls whose
record was lost, can be stated over whole runs.

## Assumptions

- One clock serves `NOW()` and `time.Now()` and never goes back; steps happen at
  one instant. Timestamps are unbounded integers, durations 64-bit ones with
  their wrap-around and saturation, both in nanoseconds.
- All workers share one fixed exponential policy.
- Fresh UUIDs are new, and identifiers are compared by a total order.
- The hash of a replay request is injective.
- A transaction is one atomic step; the purge is four, as its statements commit one by one.
- The import runs while no worker does, as the repository's README demands.

## Findings

- **Cancelling is not fenced.** docs/retry-mechanism.md:23 says a cancelled
  delivery's config was deleted or deactivated. A step cancels a delivery and
  leaves its config live if and only if it is the cancellation of a worker that had
  found no live config, while the row is pending or delivering and the config is
  live again (`FencingResults.CancelIsNotFenced`). The worker may still hold its
  claim, the row may wait, or another worker may hold it: `Scenarios` reaches all three.
- **The queue can be overtaken.** The retry of a slow completion carries the time
  computed when the endpoint answered (`Overtaking.SlowCompletionOvertakes`, reached by
  `Scenarios.SlowCompletionGoesFirst`); an enqueued event carries the time its
  processing began, stale by the wait of its transaction
  (`Overtaking.LateEnqueueOvertakes`). Both lemmas say exactly when. The bound on
  waiting counts these rows; without them it is floor(rank / limit) + 1 claims.
- **The import can loop for ever.** The selection compares with the newest
  `updated_at` of a webhook, the upsert stores the one of its last attempt. The loop
  ends if and only if the selectable webhooks for which these differ age out of the
  retention while it runs (`Backfill.LoopHaltsIff`). Under a clock that passes every
  time, that is if and only if none of them has an outstanding attempt
  (`Backfill.LoopHaltsUnlessOutstanding`, `Scenarios.ImportLoopsForEver`).
- **A replay can lose its place.** docs/retry-mechanism.md:53 says that replaying a
  pending delivery only moves its time forward. An overdue one it stamps later, with
  the present, exactly when the row was due already (`Outcomes.PendingIsExpedited`),
  and every row behind it that is due before the present is then ahead of it
  (`Overtaking.ExpediteLosesPlace`).
- **Importing over a replayed delivery can break its attempt numbering**, but only
  beside an old worker, which the repository does not support. `Backfill.NumberingIff` gives
  the exact condition, `Scenarios.MixedWorkersBreakNumbering` an input, and
  `Upgrade.RerunIsSafe` shows that the documented use never meets it.
- **A replay over just 90 days can lose its second page**
  (`ReplayHandler.NextPageIff`, `ReplayHandler.DriftedWindow`): the handler checks
  the window with its own clock, the store freezes it with a later one.
- **Some arithmetic wraps.** Doubling does when the longest delay reaches 2^62
  nanoseconds (`Backoff.DoublingLoopExact`). The attempt numbers that `GetRetryDelay`
  accepts are downward closed only for the policies whose sums fit 64 bits under
  their attempt cap, so never for an uncapped one with a positive minimum delay
  (`Backoff.AcceptedDownwardClosedIff`). A `Retry-After` of centuries wraps
  (`Attempt.SecondsHonoured`). No attempt number that the engine has counted from 0 is
  affected, nor an imported one whose exact sum leaves room for one more delay
  (`CallBounds.ReachableArithmeticIsExact`); an imported one without room can be let
  through and granted a retry past the budget (`Scenarios.ImportedCountWraps`).
  `Backoff.DecidedExactlyIff` says exactly which numbers are decided wrongly.

## Model

| member | source | states |
|---|---|---|
| Backoff.Policy.RetryDelayForAttempt | pkg/backoff/exponential.go:66-75 | the doubling loop over wrapping 64-bit durations computes Delay, for every attempt number |
| Backoff.Policy.ElapsedBeforeAttempt | pkg/backoff/exponential.go:77-83 | the nested loop computes the wrapping sum Elapsed |
| Backoff.DoublingLoopExact | pkg/backoff/exponential.go:66-75 | the loop is min(min * 2^n, max) for every n if and only if min is 0 or max is below 2^62 |
| Backoff.DelayInRange | pkg/backoff/exponential.go:66-75 | below that cap every delay is exact and lies between min and max |
| Backoff.ElapsedTwoPhase | pkg/backoff/exponential.go:77-83 | the nested sum is geometric up to the cap and linear after it |
| Backoff.ElapsedInRange | pkg/backoff/exponential.go:77-83 | the wrapping sum is the exact one as long as the exact one fits 64 bits |
| Backoff.GrantIff | pkg/backoff/exponential.go:33-43 | from attempt n within the budget, a retry is granted if and only if attempt n + 1 is within it |
| Backoff.GrantedIff | pkg/backoff/exponential.go:33-57 | the attempt numbers reachable one grant at a time are exactly those within the budget |
| Backoff.AcceptedDownwardClosedIff | pkg/backoff/exponential.go:33-43 | the numbers GetRetryDelay accepts are downward closed if and only if the minimum delay is 0 or the sums fit 64 bits up to the attempt cap |
| Backoff.AcceptedIff | pkg/backoff/exponential.go:33-43 | then a number is accepted if and only if the next one is under the cap and within the budget |
| Backoff.GrantedBound | pkg/backoff/exponential.go:33-57 | without an attempt cap the reachable numbers are at most abort / min, and past the doubling phase exactly those up to a closed form |
| Backoff.DecidedExactlyIff | pkg/backoff/exponential.go:33-43 | GetRetryDelay decides a number as exact arithmetic would, if and only if it is at the attempt cap or the exact sum for the next number does not lie in the accepted range some multiple of 2^64 further up |
| Backoff.UnreachedNumbersCanWrap | pkg/backoff/exponential.go:33-43 | an instance: a policy that refuses attempt 0 and accepts attempt 4 |
| Attempt.RetryEnvelope | pkg/attempt.go:179-286 | a retry is scheduled if and only if the answer is retryable and the requested wait fits the attempt cap, the nominal budget and the real window; then exactly after that wait; for every number that leaves room for the sums, within the budget or past it; and the code is the response's, or 0 |
| Attempt.DateHonoured | pkg/attempt.go:60-77 | a date is honoured exactly when it lies ahead, up to six hours; a negative number of seconds is not |
| Attempt.ResolveRetryDelayExact | pkg/attempt.go:234-254 | policy and Retry-After together grant the requested wait if and only if the budget allows it, for every number that leaves room |
| Attempt.WaitBracket | pkg/attempt.go:60-77 | the wait is at least the policy's delay and the parsed Retry-After, at most the policy's delay or six hours |
| Attempt.RetryStaysWithinBudget | pkg/attempt.go:256-276 | a scheduled retry leaves the next attempt within the budget and is not in the past, for every number that leaves room |
| Attempt.SecondsHonoured | pkg/attempt.go:65-70 | exactly which non-negative Retry-After seconds are honoured up to six hours: those that fit, and explicit ranges for each number of wraps |
| Attempt.HugeSecondsAreIgnored | pkg/attempt.go:65-70 | one second more than fits parses to a negative delay and leaves the policy's own |
| Keyset.TakeIsLowRank | pkg/storage/postgres/deliveries.go:60-71 | LIMIT n takes exactly the keys with fewer than n keys before them |
| Keyset.WalkAscends | pkg/storage/postgres/deliveries.go:418-445 | whatever changes between pages, the pages of a walk are strictly increasing: nothing is read twice |
| Keyset.WalkCovers | pkg/storage/postgres/deliveries.go:418-445 | a key in the table at every page of a walk that ends, until a page reads it, is read |
| Keyset.WalkOfFixedTable | pkg/storage/postgres/deliveries.go:210-246 | over an unchanging table a finished walk is the sorted table |
| Keyset.WalkTerminates | pkg/storage/postgres/deliveries.go:418-445 | a walk into whose range no row is added ends, within a page count given by its size |
| PostgresStore.Store.EnqueueEvent | pkg/storage/postgres/deliveries.go:22-52 | one new pending row for each matching live config, except for pairs of event and config that exist: afterwards exactly the active, undeleted configs subscribed to the type, and those that had one, have a row for the event |
| PostgresStore.Store.ClaimDeliveries | pkg/storage/postgres/deliveries.go:54-82 | the first due rows in (next_attempt_at, id) order become delivering, and are returned as they then are |
| PostgresStore.Store.CompleteDelivery | pkg/storage/postgres/deliveries.go:84-130 | the new tables or the error, in every branch: lost claim, dead config, taken attempt number |
| PostgresStore.Store.CancelDelivery | pkg/storage/postgres/deliveries.go:132-147 | cancels a pending or delivering row, whoever holds it, and no other row |
| PostgresStore.Store.FailClaimedDelivery | pkg/storage/postgres/deliveries.go:149-168 | fails the row exactly under the claim's own timestamp, keeping its generation and count |
| PostgresStore.Store.RecoverStaleDeliveries | pkg/storage/postgres/deliveries.go:170-198 | the claims older than the age (or five minutes) whose config exists go back to pending, due now, or are cancelled if it is not live; no other row changes; the count is that of the changed rows |
| PostgresStore.Store.FindDeliveries | pkg/storage/postgres/deliveries.go:210-246 | the page read with one extra row is the listing's page, its cursor and its flag |
| PostgresStore.Store.ReplayCached | pkg/storage/postgres/deliveries.go:297-323 | hit, conflict or miss, dropping a record older than 24 hours |
| PostgresStore.Store.ReplayDelivery | pkg/storage/postgres/deliveries.go:335-393 | the new tables and the answer of a single replay, a rejection rolling everything back |
| PostgresStore.Store.ReplayDeliveries | pkg/storage/postgres/deliveries.go:395-498 | the new tables and the answer of a bulk replay: page, counts, cursor, token, record |
| PostgresStore.Store.Partition | pkg/storage/postgres/deliveries.go:446-457 | the loop splits a page into failed and pending rows and counts the others |
| PostgresStore.Store.Reopen | pkg/storage/postgres/deliveries.go:458-482 | the two updates one after the other replay the failed rows, expedite the pending ones, and count both |
| PostgresStore.Store.PurgeFinishedDeliveries | pkg/storage/postgres/deliveries.go:500-546 | four statements, each committed alone at its own time, up to one the database refuses; the total is the number of rows gone |
| PostgresStore.Store.DeleteOneConfig | pkg/storage/postgres/postgres.go:76-100 | succeeds exactly on a config that exists and is not deleted: it is marked, no pending row of it is left, other configs and rows stay |
| PostgresStore.Store.UpdateOneConfigActivation | pkg/storage/postgres/postgres.go:102-141 | switches the config and returns it, cancels its pending rows when it is switched off, or fails; other configs and rows stay |
| PostgresStore.Store.CancelPendingDeliveries | pkg/storage/postgres/postgres.go:143-150 | cancels exactly the pending rows of the config and changes nothing else in them |
| PostgresStore.Store.BackfillWebhook | pkg/storage/postgres/deliveries.go:584-676 | the tables after the import of one webhook or the error, rolled back |
| PostgresStore.Store.BackfillDeliveries | pkg/storage/postgres/deliveries.go:548-582 | a pass imports its batch in order, up to the first webhook that fails, and counts what it imported |
| Effects.EnqueueEffect | pkg/storage/postgres/deliveries.go:22-52 | after an enqueue a config has a row for the event if and only if it had one, or is subscribed to the type, active and not deleted |
| Effects.EnqueueRows | pkg/storage/postgres/deliveries.go:36-50 | the new rows' columns; existing rows and all else stay |
| Effects.ClaimEffect | pkg/storage/postgres/deliveries.go:54-82 | a claim takes exactly the due rows of live configs with fewer than limit (or 50) of them before, in (next_attempt_at, id) order, and writes these columns |
| Effects.CompleteEffect | pkg/storage/postgres/deliveries.go:84-130 | when a completion is recorded, with which error it is not, and every column it writes |
| Effects.SettleEffect | pkg/storage/postgres/deliveries.go:132-168 | the columns that a cancellation and a failure write |
| Effects.RecoverEffect | pkg/storage/postgres/deliveries.go:170-198 | exactly which claims a recovery takes, and what becomes of them with a live config and with another |
| Effects.CacheEffect | pkg/storage/postgres/deliveries.go:297-323 | a key is free if and only if it has no record or one older than 24 hours; until then the same request is answered and any other refused |
| Effects.ReplayOneEffect | pkg/storage/postgres/deliveries.go:335-393 | exactly when a single replay is accepted, how it is refused, and every column it writes |
| Effects.BulkEffect | pkg/storage/postgres/deliveries.go:395-482 | with a free key a row changes if and only if it is failed or pending and on the page: it meets the window, status and config filters on a live config beyond the cursor, with fewer than a page of such rows before it |
| Effects.BulkAnswerEffect | pkg/storage/postgres/deliveries.go:402-498 | the counts of the answer, whether there is more, and the record kept |
| Effects.ListEffect | pkg/storage/postgres/deliveries.go:210-246 | a listing's page holds exactly the rows that match the config, status and date filters beyond the cursor with fewer than a page of newer ones |
| Effects.ListOrder | pkg/storage/postgres/deliveries.go:210-246 | newest first |
| Effects.ListKeysAndCursor | pkg/storage/postgres/deliveries.go:238-246 | each row is listed with its own creation time, and the cursor is the last of them if there is more |
| Effects.PurgeRowsEffect | pkg/storage/postgres/deliveries.go:504-529 | a class with an age loses exactly its oldest rows over that age, a batch of them, with their attempts |
| Effects.PurgeRecordsEffect | pkg/storage/postgres/deliveries.go:530-534 | records go exactly when older than 24 hours |
| Effects.PurgeConfigsEffect | pkg/storage/postgres/deliveries.go:535-546 | exactly the deleted configs without deliveries go, those deleted first, a batch of them |
| Effects.ConfigEffects | pkg/storage/postgres/postgres.go:61-100 | the columns that editing and deleting a config write |
| Answers.AnswerEffect | pkg/worker/delivery_worker.go:138-213 | for a claim that holds, a live config and open limits: the delivery has succeeded exactly on an answer from 200 to 299, waits for the requested time exactly on one worth retrying, and has failed on any other; its attempt says the same; every other column |
| Answers.AnswerColumns | pkg/worker/delivery_worker.go:175-206 | the delivery and the attempt row that the worker hands over, for every answer |
| Answers.PreflightIff | pkg/worker/delivery_worker.go:138-160 | the limits before a call pass if and only if the number is under the cap and the cycle began at most abort ago |
| Dispatching.Dispatcher.DispatchOne | pkg/worker/delivery_worker.go:118-213 | the worker's run of one claim, assignment by assignment, is a sequence of protocol steps |
| Dispatching.Dispatcher.Check | pkg/worker/delivery_worker.go:138-160 | the limits checked before the call |
| Dispatching.Dispatcher.Call | pkg/worker/delivery_worker.go:161-206 | every HTTP result is mapped to a delivery and an attempt row to complete with |
| Dispatching.DispatchedIsRun | pkg/worker/delivery_worker.go:118-213 | that sequence is one of the runs the theorems range over |
| Dispatching.CallMade | pkg/worker/delivery_worker.go:161-213 | with a live config and an open budget, the net effect is the completion with the answer |
| Reachable.StepKeepsInv | pkg/storage/postgres/deliveries.go:22-546 | every step of every kind preserves the whole invariant: row shapes, live configs, unique indexes, references, numbering, and the state of every claim |
| Reachable.RunKeepsInv | pkg/storage/postgres/deliveries.go:22-546 | hence it holds after every run |
| Invariants.CompleteKeeps | pkg/storage/postgres/deliveries.go:99-125 | the completion of a claim that holds cannot fail, its attempt number is free, and the tables keep their invariants |
| FencingResults.AtMostOneHolder | pkg/storage/postgres/deliveries.go:54-198 | after any run at most one unfinished claim of a delivery matches its row |
| FencingResults.HoldsOrDead | pkg/storage/postgres/deliveries.go:102-105 | an unfinished claim either holds its row, unchanged since the claim, or is dead, and never both |
| FencingResults.SupersededForever | pkg/storage/postgres/deliveries.go:99-168 | once dead, a claim stays dead after any further run, and completing or failing with it changes no table |
| FencingResults.CancelIsNotFenced | pkg/storage/postgres/deliveries.go:132-147 | a step cancels a delivery and leaves its config live if and only if it is a late cancellation: a worker that had found no live config, a pending or delivering row, a config live again |
| FencingResults.UnfinishedClaimsAreApart | pkg/storage/postgres/deliveries.go:170-191 | after any run, an unfinished claim is more than the recovery age older than the next claim of its delivery, across generations |
| FencingResults.OneWorkerAtATime | docs/retry-mechanism.md:44 | so workers that settle within the recovery age are never two at a time on one delivery |
| FencingResults.HolderRecords | pkg/storage/postgres/deliveries.go:99-125 | an answer in time is always recorded, under the next free number of its generation |
| FencingResults.AttemptsAppendOnly | pkg/storage/postgres/deliveries.go:99-101 | no step rewrites an attempt; a new one has the next number of the current generation; they leave only with their delivery |
| FencingResults.HistoryIsGapless | pkg/storage/migrations.go:218-219 | after any run every generation is numbered 1 .. n without gap, n being the attempt count in the current one |
| FencingResults.TransitionGraph | pkg/storage/postgres/deliveries.go:22-546 | every step moves every row along an edge of the transition graph, and a purged row never returns |
| CallBounds.OneCallPerClaim | pkg/worker/delivery_worker.go:138-171 | over any run, a claim sends its HTTP request at most once, exactly when its call is on record, and the time of the call never changes |
| CallBounds.CallWithinWindow | pkg/worker/delivery_worker.go:94-102 | every call starts within the abort window of the cycle's first claim |
| CallBounds.LostCallsBound | pkg/storage/postgres/deliveries.go:170-191 | m calls of a generation that left no record need (m - 1) recovery ages within the abort window |
| CallBounds.HttpCallsBounded | pkg/worker/delivery_worker.go:138-206 | after any run a generation cost at most maxAttempts recorded calls and abort / stale + 1 lost ones |
| CallBounds.UncappedCallsBounded | pkg/worker/delivery_worker.go:138-206 | without a cap, a positive minimum delay bounds by abort / min + 1 the recorded calls of each generation that the engine counts from 0: all of broker deliveries, all but the first of imported ones |
| CallBounds.RunKeepsBudget | pkg/attempt.go:234-276 | after any run, every unfinished delivery's attempt number leaves room for the sums, and is within the budget if the engine counted it from 0 |
| CallBounds.ReachableArithmeticIsExact | pkg/backoff/exponential.go:66-83 | so every shift and sum for it is exact, for rows and for the copies that workers hold, if the numbers that the import brought leave room |
| Overtaking.OvertakeStep | pkg/storage/postgres/deliveries.go:60-80 | one step: rows ahead plus rows a claim takes never exceed rows ahead before plus late arrivals |
| Overtaking.BoundedOvertaking | pkg/storage/postgres/deliveries.go:60-80 | a due delivery nobody disturbs is taken once the claims could take more than the rows ahead and the late arrivals |
| Overtaking.ClaimedWithinRankOverL | pkg/storage/postgres/deliveries.go:60-80 | without late arrivals, floor(rank / limit) + 1 claims are enough |
| Overtaking.SlowCompletionOvertakes | pkg/storage/postgres/deliveries.go:99-125 | a slow completion enters ahead of the waiting row if and only if its stamp comes first |
| Overtaking.LateEnqueueOvertakes | pkg/storage/postgres/deliveries.go:36-50 | an accepted event puts a row ahead of the waiting one if and only if its pair has no row yet and its stamp comes first |
| Overtaking.ExpeditedPlace | pkg/storage/postgres/deliveries.go:369-388 | after the replay of a pending row, the other due rows ahead of it are exactly those that sort before the present and its ID |
| Overtaking.ExpediteLosesPlace | pkg/storage/postgres/deliveries.go:369-388 | so every other row due before the present is ahead of it then, although only those before its old key were |
| Outcomes.SucceededAndCancelledAbsorb | pkg/storage/postgres/deliveries.go:84-198 | succeeded and cancelled rows never change again until they are purged |
| Outcomes.FailedLeftByReplay | pkg/storage/postgres/deliveries.go:369-388 | a failed row is left only by a replay on a live config, one generation up with a fresh budget, or by the purge |
| Outcomes.PendingIsExpedited | pkg/storage/postgres/deliveries.go:369-388 | replaying a pending row keeps generation, count and cycle, and leaves it due now, which is no earlier if and only if it was due already |
| Outcomes.PendingImpliesLiveConfig | pkg/storage/postgres/postgres.go:76-150 | after any run every pending row's config exists, is active and is not deleted |
| Outcomes.InFlightOnDeadConfigEnds | pkg/storage/postgres/deliveries.go:90-97 | while its config stays dead a delivery in flight is never queued again |
| Outcomes.RedeliveryDeduplicates | pkg/storage/postgres/deliveries.go:28-50 | after any run that deletes no delivery there is one row per event and config, for exactly the configs that matched and were live at some commit |
| Outcomes.EnqueueNeverOverwrites | pkg/storage/postgres/deliveries.go:46-47 | an enqueue changes no existing row |
| Outcomes.PurgeIsSafe | pkg/storage/postgres/deliveries.go:500-546 | a purge statement takes only old terminal rows of its class, at most a batch, with exactly their attempts; no held row; no config that is kept or referenced |
| Outcomes.PurgeIsRun | pkg/storage/postgres/deliveries.go:500-546 | the statements of a purge are a run of the state machine, so others may come between |
| Idempotency.AppliedOncePerDay | pkg/storage/postgres/deliveries.go:297-333 | over any run two applications under one key are more than 24 hours apart |
| Idempotency.RepeatedReplayIsCached | pkg/storage/postgres/deliveries.go:297-323 | within 24 hours, whatever ran since, the same request gets the stored response and any other a conflict, without a change |
| Idempotency.OnlyApplicationsChangeTables | pkg/storage/postgres/deliveries.go:335-393 | a replay changes the tables if and only if it is applied |
| Idempotency.FutileReplaysCanBeDropped | pkg/storage/postgres/deliveries.go:335-393 | leaving every rejected or cached replay out of a run leads to the same world, so a rejection does not use up its key |
| Walks.WorldsFollow | pkg/storage/postgres/deliveries.go:395-498 | along any run, rows keep their sort keys and IDs are not reused |
| Walks.BulkWalkIsKeysetWalk | pkg/storage/postgres/deliveries.go:418-445 | the pages of a bulk replay are a keyset walk over what they find |
| Walks.TouchedAtMostOnce | pkg/storage/postgres/deliveries.go:418-445 | a walk touches each delivery at most once, even one that fails again meanwhile |
| Walks.TouchedExactlyOnce | pkg/storage/postgres/deliveries.go:418-445 | a finished walk touches exactly once every delivery that meets the filters until it is touched, whatever happens to it then |
| Walks.WalkGainsAtMostOne | pkg/storage/postgres/deliveries.go:459-471 | along a run, the requests of a walk together add at most one to a delivery's generation |
| Walks.BulkWalkTerminates | pkg/storage/postgres/deliveries.go:418-445 | a walk ends whose candidates stay within a fixed set of keys |
| Walks.BulkWalkEnds | pkg/storage/postgres/deliveries.go:418-445 | over a run without an event stamped inside the window, the walk ends within as many pages as its rows need |
| Walks.PageEffect | pkg/storage/postgres/deliveries.go:441-487 | an applied page replays or expedites each of its rows and no other, skips none, and counts them |
| Walks.ListingOfFixedTable | pkg/storage/postgres/deliveries.go:210-246 | the pages of a listing of a fixed table are the filtered rows, newest first, no gap and no duplicate |
| Walks.ListingUnderChange | pkg/storage/postgres/deliveries.go:210-246 | under any change nothing is listed twice, and what stays until it is listed is listed |
| Walks.ListedExactlyOnce | pkg/storage/postgres/deliveries.go:210-246 | along a run, a delivery that matches until it is listed is listed exactly once |
| ReplayHandler.PrepareRequest | pkg/server/deliveries.go:230-283 | the handler's completion and checks, in their order, compute Prepare |
| ReplayHandler.ReplayDeliveriesHandle | pkg/server/deliveries.go:219-288 | a missing or overlong key or a refused request changes nothing; an accepted one is the store's bulk replay of the completed request |
| ReplayHandler.FirstRequestIff | pkg/server/deliveries.go:230-283 | exactly which first requests are accepted, and which problem is reported for the others |
| ReplayHandler.FirstRequestAsks | pkg/server/deliveries.go:230-283 | what an accepted one asks the store for |
| ReplayHandler.FilterOrderIsIrrelevant | pkg/server/deliveries.go:241-257 | permuted filters are the same request, hence the same idempotency record |
| ReplayHandler.PreparedIsNormal | pkg/server/deliveries.go:234-283 | the store fills in nothing but an open upper bound, and replays only failed and pending rows |
| ReplayHandler.FollowUpIff | pkg/server/deliveries.go:258-283 | exactly which requests are accepted with a page's token, and that they ask for the frozen window and filters from the cursor on |
| ReplayHandler.NextPageIff | pkg/server/deliveries.go:276-283 | repeating the body with the token is accepted if and only if the upper bound was given or the frozen window is at most 90 days |
| ReplayHandler.DriftedWindow | pkg/server/deliveries.go:276-283 | a first page accepted and its next page refused |
| ReplayHandler.ClientWalkIsBulkWalk | pkg/server/deliveries.go:258-301 | a client that follows the tokens walks one frozen request, whatever the clocks do |
| ReplayHandler.ClientTouchesOnce | pkg/server/deliveries.go:258-301 | so no delivery is on two of its pages |
| ReplayHandler.ClientTouchesExactlyOnce | pkg/server/deliveries.go:258-301 | and one that meets the filters until it is touched is on exactly one, once the client came to the end |
| ImportEffects.HistoryIsComplete | pkg/storage/postgres/deliveries.go:584-590 | a webhook's history is exactly its attempts |
| ImportEffects.HistoryInOrder | pkg/storage/postgres/deliveries.go:584-590 | in (created_at, id) order |
| ImportEffects.ImportErrors | pkg/storage/postgres/deliveries.go:590-650 | when an import fails and with which error |
| ImportEffects.ImportStatus | pkg/storage/postgres/deliveries.go:619-648 | pending if and only if some attempt is unfinished and the config live, then due at the last attempt's time; cancelled if unfinished on another; succeeded if and only if finished and the last attempt was a success; else failed |
| ImportEffects.ImportColumns | pkg/storage/postgres/deliveries.go:633-657 | every other column, from the first and the last attempt; a row that exists keeps its generation and creation time; other rows stay |
| ImportEffects.ImportAttempts | pkg/storage/postgres/deliveries.go:658-674 | attempt n of the history becomes attempt n of generation 0 with its outcome, code and time, unless there is one |
| ImportEffects.ImportConfig | pkg/storage/postgres/deliveries.go:602-618 | a config that is gone is put back inactive and deleted |
| ImportEffects.SelectionEffect | pkg/storage/postgres/deliveries.go:552-571 | exactly which webhooks a pass may select, and the time each is ordered by |
| ImportEffects.BatchEffect | pkg/storage/postgres/deliveries.go:552-571 | a pass takes those with fewer than a batch of them before, in that order |
| Backfill.BackfillImports | pkg/storage/postgres/deliveries.go:584-676 | the imported row is a function of the ordered attempts and the config's liveness; its attempts are there; no other row changes |
| Backfill.BackfillIdempotent | pkg/storage/postgres/deliveries.go:639-675 | importing a webhook again, at any later time, changes nothing |
| Backfill.CaughtUpIff | pkg/storage/postgres/deliveries.go:561-564 | an imported webhook stops lagging if and only if its last attempt carries its newest update |
| Backfill.BatchCatchesUp | pkg/storage/postgres/deliveries.go:552-581 | exactly which webhooks lag after a batch |
| Backfill.LoopHaltsIff | cmd/backfill_deliveries.go:38-48 | under any monotone clock, the loop ends if and only if every webhook the first pass could select and whose last attempt is not its newest ages out |
| Backfill.LoopHaltsUnlessOutstanding | cmd/backfill_deliveries.go:38-48 | under a clock that passes every time, the loop ends if and only if no such webhook has an outstanding attempt |
| Backfill.NumberingIff | pkg/storage/postgres/deliveries.go:657-674 | the import keeps the attempt numbering gapless under exactly this condition |
| Backfill.PassKeepsNewlyImported | pkg/storage/postgres/deliveries.go:548-582 | a pass before the engine runs keeps every table invariant |
| Upgrade.ImportIsStart | pkg/storage/postgres/deliveries.go:548-582 | the engine may start from whatever the import leaves |
| Upgrade.RerunIsSafe | README.md:60-68 | repeating the command after any run of the engine leaves every row alone that the engine stamped and keeps every invariant, the attempt numbering among them |
| BackfillCommand.BackfillAllDeliveries | cmd/backfill_deliveries.go:37-51 | from any tables, also those the engine has changed since an earlier import: the loop ends under exactly that condition, has no error if no import is impossible, and leaves nothing to select; if all legacy rows were imports the import is complete; each delivery is counted once if last attempts are newest; after an error only whole imports |
| Scenarios.HolderCancelsOnLiveConfig | pkg/storage/postgres/deliveries.go:132-147 | a run from a start world after which a worker that holds its claim cancels on a live config |
| Scenarios.SupersededCancelsWaitingRow | pkg/storage/postgres/deliveries.go:132-147 | one after which a worker that lost its claim cancels a row that waits |
| Scenarios.SupersededCancelsHeldRow | pkg/storage/postgres/deliveries.go:132-147 | one after which it cancels a row that a newer claim holds |
| Scenarios.SlowCompletionGoesFirst | pkg/storage/postgres/deliveries.go:99-125 | a run after which a slow completion is ahead of the row that was next |
| Scenarios.ImportLoopsForEver | cmd/backfill_deliveries.go:38-48 | two outstanding attempts of one webhook for which the loop never ends, under any clock |
| Scenarios.ImportedCountWraps | pkg/backoff/exponential.go:33-43 | a sane policy and an imported row with four attempts: the preflight passes, and the answer schedules a retry past the budget |
| Scenarios.MixedWorkersBreakNumbering | pkg/storage/postgres/deliveries.go:657-674 | a selected webhook whose import breaks the numbering, after an old worker wrote beside the engine |

## Left out

- BackfillCommand.BackfillAllDeliveries: requires the exact condition under which the loop ends, since a method must.
- Attempt.RetryEnvelope: for attempt numbers that leave room for the sums; DecidedExactlyIff says which others are decided wrongly, ImportedCountWraps is one.
- CallBounds.UncappedCallsBounded: not for generation 0 of an imported delivery, whose number the old queue counted.
- CallBounds.ReachableArithmeticIsExact: requires that the numbers the import brings leave room; ImportedCountWraps shows one that does not.
- Overtaking.BoundedOvertaking: counts late arrivals in the bound, because rows stamped in the past do enter ahead.
- Outcomes.PendingImpliesLiveConfig: for atomic transactions; the replay paths read the config without locking it.
- ReplayHandler.ClientWalkIsBulkWalk: the handler and the store see any worlds that follow one another; that a page's own effect is part of the next one is left to the run.
- Upgrade.RerunIsSafe: requires that no old worker writes attempts after the engine has started; MixedWorkersBreakNumbering shows what happens otherwise.
- Backoff.Policy.RetryDelayForAttempt: attempt numbers are not negative; the engine never passes a negative one.
- Isolation anomalies, `FOR UPDATE SKIP LOCKED`, advisory locks and deadlocks: every transaction is one atomic step, so a claim skips no due row.
- HTTP transport, request signing, response bodies and their read errors beyond the retry decision they lead to.
- JSON and base64 of cursors and responses, header lexing and timestamp syntax: a cursor is a record, a Retry-After header is the outcome of its two parses, identifiers are numbers.
- Config creation, editing and validation beyond two steps that set event types; endpoints and secrets, and so secret rotation.
- The text columns (payload, event type of a row, idempotency key, last error), the IDs and durations of attempt rows, and with them the import's conflict on an attempt ID.
- The policy without retries (pkg/backoff's other policy), and the test route.
- The worker pool, the dispatch and recovery tickers and shutdown: claims, recoveries and crashes are steps that happen at any time.
- The broker's acknowledgement: enqueueing may be repeated.
- Reading one delivery or its attempts, counting the queue, metrics, traces and logs.
- Ties of the import's selection order, which the query leaves open, are broken by webhook ID.
- Import mixed with live workers, which the repository does not support.
