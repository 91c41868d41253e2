# Verified model of the Grant Watch protocols

Grant Watch polls funding sources, researches entities through paid APIs, and pushes leads to
Slack. Most of its difficult logic is a handful of durable protocols that must survive crashes,
concurrent processes and answers that never arrive, plus two algebras that merge the spending
ledgers of several machines. This project models those protocols in Dafny 4.11 and proves what
they promise. `dafny verify dfyconfig.toml` checks everything.

## How the model reads

* **Restartable paid discovery.** `discovery_models.dfy` holds the evidence values and their
  transitions, `discovery_store.dfy` the validators and the sharded store, `discovery_plan.dfy`
  planning. `discovery_history.dfy` says which durable write, paid call or run boundary may follow
  which, over any number of runs, crashes and replies; `discovery_guarantees.dfy` proves the
  guarantees over every such history; `discovery_replies.dfy` says what each reply leads to and
  `discovery_evidence.dfy` what the stored evidence vouches for; `discovery_run.dfy` is the execution
  loop itself, proved to produce only those histories.
* **Reserve-before-send delivery.** `delivery.dfy` is the protocol of concurrent, dying ticks, one
  event per committed transaction; `delivery_rows.dfy` says what finished rows say, and
  `delivery_resend.dfy` what a refusal leaves sendable;
  `delivery_run.dfy` is one tick as the source writes it, with arbitrary protocol steps of everyone
  else between any two of its own.
* **Polling lease and poll runs.** `poll_lease.dfy` separates taking the write lock, the two
  ownership checks and the commit; `poll_clock.dfy` puts its histories in time, and
  `lease_keeper.dfy` is the renewing thread among everyone else. `poll_store.dfy`, `poll_runs.dfy` and
  `poll_driver.dfy` cover what the lease protects: lead projection and run confirmation.
  `poll_fencing.dfy` proves that any number of fenced processes leave a history of single runs.
* **Ledger merging.** `firecrawl_merge.dfy`, `firecrawl_laws.dfy`, `firecrawl_balance.dfy`,
  `firecrawl_columns.dfy`, `zoominfo_merge.dfy`, `zoominfo_laws.dfy`, `zoominfo_columns.dfy`. The two
  `_columns` files state verdicts and results on the columns of the rows alone.
* **Memory, reminders, paid enrichment, coverage, freshness.** `user_memory.dfy`,
  `memory_recall.dfy` and `memory_store.dfy`; `reminders.dfy`, `reminder_desk.dfy` and `reminder_race.dfy`;
  `paid_calls.dfy`; `entity_coverage.dfy`; `card_freshness.dfy`.
* `options.dfy`, `sharded_rows.dfy`, `first_best.dfy`, `ledger_stamps.dfy`, `ledger_periods.dfy`,
  `set_sums.dfy` and `stable_sort.dfy` are the shared vocabulary.

Conventions. A crash drops local variables and keeps what was committed. A committed SQLite
transaction is one step; UNIQUE and PRIMARY KEY constraints are table invariants that make an
insert fail. Network answers, clock readings, sleeps and crashes are arbitrary, except that the
discovery clock does not run backwards and its sleeper sleeps at least as long as asked. A `mortal`
parameter says whether a run may die. SHA-256 is a parameter, so statements hold for any function
in its place; where a collision matters the statement says so. Texts that are only compared or
copied are numbers. Digests, ids and file paths keep only their identity and order.

## Where the code does something other than its prose

* One message per calendar day (grant_watch/campaign/pacing.py:1-6) holds per date of the tick that
  sent it. A message sent before midnight that lands after it can share its landing date with the
  next day's. `Delivery.OnePerCalendarDate` gives the exact condition.
* A tick that dies after Slack refused its card, between deleting the outbox row and deleting the
  slot, leaves the slot row. The slot's key is per award, so that award can never be sent to that
  channel again: `DeliveryResend.RefusalCanBlockForGood` reaches such a state, and
  `DeliveryResend.SendableUnlessLeftBehind` says exactly when an award can still be sent.
* An expired lease can revive itself: `heartbeat` reads the clock before it waits for the write lock.
  `PollClock.RevivedByHeartbeat` says exactly by which heartbeats, and `PollClock.NeverRevivesIfTimely`
  for exactly which delays of heartbeats it never happens.
* A reminder whose send failed is "left ACTIVE so the next tick retries it"
  (grant_watch/reminder_worker.py:211-216). The reservation stays, so it is never sent again:
  `ReminderRace.ClaimedIsNeverRetried`.
* `remember` "returns None if already known" (grant_watch/user_memory.py:333). A fact on file,
  unexpired but corrected, is known and yet not recalled (`MemoryRecall.SaidAgainInVain`).
  `MemoryRecall.RememberedIsRecalledUnlessWithdrawn` says exactly when.
* With the retry flag, a second caller can overwrite the completion of one that is still working and
  buy again (`PaidCalls.FlagRacesCompletion`). `PaidCalls.FlagIsSafeOnceTheCallerIsGone` says exactly
  for which rules on setting the flag it cannot.
* `card_award_cutoff` has no value in the first half of year 1: `CardFreshness.CutoffExists`.

## Model

| member | source | states |
|---|---|---|
| DiscoveryModels.ConvertPayload | grant_watch/firecrawl_client.py:156-218 | The one-pass conversion of a provider payload, refusing at the first non-object result, yields the outcome defined for the whole payload: each malformed shape its own failure, otherwise every result ranked by position |
| DiscoverySteps.EveryReplyIsEvidence | grant_watch/source_discovery_batch.py:111-167 | Whatever the gateway answers, the attempt recorded for it passes attempt validation and stays within the result limit, including the response hash rebuilt from the kept fields |
| DiscoverySteps.PayloadRebuilt | grant_watch/source_discovery_store.py:386-415 | Metadata without the data field plus the ranked raw results is the payload again, so the stored response hash is recomputed from exactly what was kept |
| DiscoverySteps.BeginKeepsValid | grant_watch/source_discovery_models.py:220-248 | From a valid pending or retryable task, the in-flight marker can always be appended under a nondecreasing clock; the batch stays valid and earlier attempts stay word for word |
| DiscoverySteps.CompleteKeepsValid | grant_watch/source_discovery_models.py:251-270 | For every gateway reply, completing the marker gives a valid task that extends the evidence and records that reply |
| DiscoverySteps.RecoverKeepsValid | grant_watch/source_discovery_models.py:273-299 | Recovering an interrupted marker gives a valid task whose last attempt is a lost one, retryable or exhausted |
| DiscoveryStore.CheckSuccess | grant_watch/source_discovery_store.py:386-425 | The walk over the results of a success accepts exactly the attempts with contiguous ranks, object results, a matching hash and no failure marks |
| DiscoveryStore.ValidateCheckpoint | grant_watch/source_discovery_store.py:329-483 | The loop with a running previous completion accepts exactly the well-formed checkpoints |
| DiscoveryStore.EvidenceIsSequential | grant_watch/source_discovery_store.py:357-380 | In a valid checkpoint any earlier attempt is completed before any later one starts |
| DiscoveryStore.ValidateBatch | grant_watch/source_discovery_store.py:601-655 | Accepts exactly: a valid manifest whose task ids, namespaces and states are those of the checkpoints, each with the status its attempts imply |
| DiscoveryStore.ListedBatchValid | grant_watch/source_discovery_store.py:601-655 | Validating the loaded list is validating the stored tasks as a table |
| DiscoveryStore.BatchStore.LoadCheckpoints | grant_watch/source_discovery_store.py:583-598 | Loads every stored checkpoint once, by task id, or refuses exactly when a line is invalid, misplaced, repeated or over the cap |
| DiscoveryStore.BatchStore.InitializeBatch | grant_watch/source_discovery_store.py:658-686 | An existing batch is accepted only if it is this manifest over valid rows and is left alone; a new one is stored whole, exactly when it is valid and current |
| DiscoveryStore.BatchStore.ReplaceCheckpoint | grant_watch/source_discovery_store.py:689-710 | Refused exactly when the batch with this row changed would not be valid; inside a shard exactly one task changes; across shards the store becomes unreadable |
| DiscoveryPlan.PlanBatch | grant_watch/source_discovery_batch.py:338-402 | Accepted exactly for 1 to 100 well-formed targets with distinct task ids and bounds in range; gives one pending checkpoint per target in order, under a manifest naming exactly them, and the pair is a valid batch |
| DiscoveryPlan.PendingIsNew | grant_watch/source_discovery_models.py:134-173 | The planned row is the checkpoint the constructor makes under that manifest |
| DiscoveryPlan.QueryNamesTheEntity | grant_watch/source_discovery_batch.py:248-259 | Two targets whose names hold no quotation mark get the same query only for the same name, state and kind of government |
| DiscoveryEvidence.AttemptOnColumns | grant_watch/source_discovery_store.py:329-425 | Attempt evidence is accepted exactly if its outcome is known and its status, errors, flags and content each fit that outcome |
| DiscoveryEvidence.TargetOnColumns | grant_watch/source_discovery_store.py:329-356 | A target is valid exactly with a two-capital state and a GEOID of five digits for a county, of seven for a school district or place |
| DiscoveryEvidence.ManifestOnColumns | grant_watch/source_discovery_store.py:288-326 | A manifest is accepted exactly for 1 to 100 tasks under distinct ascending ids, 1 to 5 results, 1 to 60 requests a minute, 1 to 3 attempts, distinct known namespaces, alphabetical states and a well-formed heading |
| DiscoveryEvidence.EvidenceCannotBeAltered | grant_watch/source_discovery_store.py:386-415 | With a collision-free digest, two valid successes with one response hash hold the same results in the same order and the same metadata |
| DiscoveryEvidence.IdNamesOneTask | grant_watch/source_discovery_models.py:87-131 | With a collision-free digest, and texts without the bar that joins them, a current task id names one batch, query, template and complete snapshot of one entity |
| DiscoveryEvidence.RequestHashNamesTheRequest | grant_watch/source_discovery_store.py:601-655 | With a collision-free digest the request hash of a valid checkpoint names its query and result limit |
| DiscoveryEvidence.RowsLieWhereTheyBelong | grant_watch/source_discovery_store.py:583-598 | In a readable store every row lies in the file of its namespace, state and third GEOID digit, of at most 1000 lines |
| DiscoveryHistory.MembersClosed | grant_watch/source_discovery_store.py:601-655 | The per-task judgement of batch validation survives every transition, for every flag, reply and later instant |
| DiscoveryHistory.StepKeepsInv | grant_watch/source_discovery_batch.py:464-534 | Every event of the loop keeps the whole batch valid, timely and coherent |
| DiscoveryHistory.StepExtends | grant_watch/source_discovery_batch.py:464-534 | Every event only adds to the evidence: completed attempts never change, terminal tasks never change |
| DiscoveryGuarantees.EvidenceOnlyGrows | grant_watch/source_discovery_batch.py:439-546 | At every moment of every history the stored batch validates, and between any two moments evidence is only extended |
| DiscoveryGuarantees.CallBudget | grant_watch/source_discovery_batch.py:486-511 | Over all runs, flags and crashes a task is paid for at most max_attempts times, each call covered by a stored attempt |
| DiscoveryEvidence.BatchBudget | grant_watch/source_discovery_batch.py:462-543 | A batch pays for at most max_attempts searches for each of its tasks over all runs and crashes, and never for more than 300 |
| DiscoveryGuarantees.LostAttemptsNeedTheFlag | grant_watch/source_discovery_batch.py:464-483 | A call whose previous attempt lost its response happens only in a run started with the retry flag |
| DiscoveryGuarantees.NoCallAfterStop | grant_watch/source_discovery_batch.py:516-530 | After a lost response or a systemic refusal, the next call belongs to a later run |
| DiscoveryGuarantees.CallsAreSpaced | grant_watch/source_discovery_batch.py:452-512 | Within a run each call starts at least one rate interval after every earlier completion |
| DiscoveryGuarantees.CallsAreSpacedAcrossRuns | grant_watch/source_discovery_batch.py:423-436 | Across restarts the interval holds from the stored completion, that is, up to one second |
| DiscoveryGuarantees.RetriesBackOff | grant_watch/source_discovery_batch.py:531-534 | The call after a retryable k-th attempt is of the same task and waits at least the provider's delay and 2^(k-1) seconds |
| DiscoveryReplies.StoppingReplyEndsTheRun | grant_watch/source_discovery_batch.py:111-167 | After a reply that never came, and after the account refuses for want of a credential or budget, no call follows before another run is started |
| DiscoveryReplies.LostReplyNeedsTheFlag | grant_watch/source_discovery_batch.py:464-534 | The next call of a task whose reply never came is made in a later run, started with the retry flag |
| DiscoveryReplies.LimitIsWaitedOut | grant_watch/source_discovery_batch.py:512-543 | After a rate limit with an attempt left, the run's next call is of the same task and waits as long as the gateway said, and one second after the first attempt, two after the second |
| DiscoveryReplies.RateIsKept | grant_watch/source_discovery_batch.py:452-480 | Between a completion and any later call of the run lies at least a minute divided by the requests per minute |
| DiscoveryReplies.OtherRepliesAreFinal | grant_watch/source_discovery_batch.py:111-167 | Any other reply decides the task: it is never called again, in this run or a later one |
| DiscoveryReplies.ReplyIsRecorded | grant_watch/source_discovery_batch.py:111-167 | A reply halts the run exactly if it never came or the account refused; each is recorded under its own outcome and error, at the whole second of its completion |
| DiscoveryReplies.PayloadOutcome | grant_watch/firecrawl_client.py:156-218 | A payload is a success or an empty answer exactly if it carries results within the limit, which are kept in order; any other is a malformed response that keeps nothing |
| DiscoveryRun.Worker.LatestCompletion | grant_watch/source_discovery_batch.py:423-436 | The nested loops find the latest completion of all attempts and other batches |
| DiscoveryRun.LatestCovers | grant_watch/source_discovery_batch.py:423-436 | That completion is no earlier than any stored one |
| DiscoveryRun.Worker.Pace | grant_watch/source_discovery_batch.py:486-496 | After the computed delay the rate interval and the back-off have both passed |
| DiscoveryRun.Worker.Persist | grant_watch/source_discovery_store.py:689-710 | Inside the loop a replacement is never refused and changes exactly its task |
| DiscoveryRun.Worker.Attempt | grant_watch/source_discovery_batch.py:486-515 | One paid attempt writes the marker before the call and the outcome after it; a death in between leaves the marker |
| DiscoveryRun.Worker.Attempts | grant_watch/source_discovery_batch.py:486-535 | The inner loop ends with the task terminal, or stopped by the outcome it just recorded, and touches no other task |
| DiscoveryRun.Worker.ExecuteTask | grant_watch/source_discovery_batch.py:462-535 | A task left in flight or lost is touched only under the flag; otherwise the run raises over it |
| DiscoveryRun.Worker.ExecuteBatch | grant_watch/source_discovery_batch.py:439-546 | Refused exactly for a batch that is invalid, outdated or not the stored one; otherwise the history continues legally, a finished run leaves every task terminal, and a raised one names its reason |
| DiscoveryRun.WorkerPaysWithinBudget | grant_watch/source_discovery_batch.py:439-546 | However a worker was run, the calls it made for a task number at most max_attempts |
| Delivery.StepKeepsInv | grant_watch/campaign/delivery.py:237-293 | Every transaction of every tick keeps slots and awards held by at most one tick each, and every message that may land held by both |
| Delivery.OneLanding | grant_watch/campaign/delivery.py:237-293 | Among any concurrent, dying ticks, two messages that landed or may still land in a channel have different tick dates and different awards |
| Delivery.RowsTellTheTruth | grant_watch/db_delivery.py:70-95 | A finished outbox row is true: delivered only if it landed, rejected only if refused, unrenderable only if nothing was sent |
| Delivery.SlotDeletedByHolder | grant_watch/campaign/pacing.py:63-68 | A rich slot disappears only by the tick that holds it, which made no call or was refused |
| Delivery.RowDeletedByHolder | grant_watch/db_delivery.py:98-110 | An award's row is deleted only by its holder after a refusal |
| DeliveryRows.FinishedRowsSayWhatHappened | grant_watch/campaign/delivery.py:247-300 | A row its tick finished says what happened (delivered, rejected, unrenderable or unknown), and nothing any tick does later changes that |
| Delivery.LandedStaysTaken | grant_watch/campaign/delivery.py:237-293 | Once a message landed, its day and its award stay taken for good |
| Delivery.DeadHolderBlocksAward | grant_watch/campaign/delivery.py:266-290 | A tick that died holding a slot blocks its award on that channel for ever |
| DeliveryResend.SendableUnlessLeftBehind | grant_watch/campaign/delivery.py:237-293 | From any reachable state with no tick and no call under way, some later tick can deliver an award exactly if neither its slot key nor its row was left behind |
| DeliveryResend.RefusalCanBlockForGood | grant_watch/campaign/delivery.py:266-290 | A reachable state in which Slack refused the card, the row is gone, and no later tick can ever deliver the award |
| Delivery.OnePerCalendarDate | grant_watch/campaign/pacing.py:38-60 | At most one message per channel and landing date in every history, if and only if no date can receive messages of two tick dates |
| Delivery.TwoOnOneDate | grant_watch/campaign/pacing.py:38-60 | A concrete history in which two ticks of different dates land on one date |
| DeliveryRun.EverySlotReachable | grant_watch/campaign/pacing.py:21-27 | Runs every period minutes meet every day's slot, whatever their offset, exactly when the cutoff leaves one period after the last slot |
| DeliveryRun.SlotsFillTheWindow | grant_watch/campaign/pacing.py:38-43 | The slots are the minutes from 10:00 to 10:45, each the slot of some digest |
| DeliveryRun.RunsMayBe45MinutesApart | grant_watch/campaign/pacing.py:23-30 | With the cutoff at 11:30, runs reach every slot exactly if they are at most 45 minutes apart |
| DeliveryRun.EarlyMeans | grant_watch/campaign/pacing.py:82-110 | On what the tick was given: when it is skipped and what for, when it goes on to the card, which early ending it has, and after which the plain daily card may post |
| DeliveryRun.FallbackOnceReserving | grant_watch/campaign/delivery.py:153-164 | Once reserving has begun, only an award lost to another tick lets the plain card post |
| DeliveryRun.Scene.Run | grant_watch/campaign/delivery.py:167-320 | A tick takes only protocol steps under any interference; it touches the tables only on a free day and, unless forced, on a weekday in its window; it is skipped for the weekend, before its slot and from the cutoff on; each outcome says what it left |
| DeliveryRun.Scene.Deliver | grant_watch/campaign/delivery.py:237-252 | Day first, then award, then the call; losing either leaves nothing held |
| DeliveryRun.Scene.Conclude | grant_watch/campaign/delivery.py:255-326 | Refusals of the channel give both reservations back, refusals of the card and unknown answers keep them |
| PollLease.PollLock.Acquire | grant_watch/poll_lease.py:80-128 | Refused exactly while the stored expiry, or the acquisition of an old row without one, lies after the reading; otherwise the token is one above the stored one |
| PollLease.PollLock.Heartbeat | grant_watch/poll_lease.py:151-180 | Renews exactly for the current, unexpired token by this reading, and changes nothing else |
| PollLease.PollLock.Release | grant_watch/poll_lease.py:230-251 | Expires only its own token |
| PollLease.CommitsAreFenced | grant_watch/poll_lease.py:183-227 | For any clock readings, committed tokens never decrease, a takeover's token is new, and the commits of one token are one block by one owner |
| PollLease.SupersededStays | grant_watch/poll_lease.py:131-148 | A lease whose token was taken over owns nothing for ever and is turned away at its first check |
| PollClock.ValidInTurn | grant_watch/poll_lease.py:80-148 | Along one nondecreasing clock, with readings as old as they like, the leases valid instant after instant have growing tokens: never two at once, and the times of two leases neither overlap nor alternate |
| PollClock.SupersededHadExpired | grant_watch/poll_lease.py:80-128 | A lease that is superseded was superseded by a takeover at an instant when its last expiry was over, and owns nothing afterwards |
| PollLease.ObsoleteIsHarmless | grant_watch/poll_lease.py:151-251 | Over any history, leaving out the heartbeats and releases of a lease that was taken over leaves the same database |
| PollClock.RevivedByHeartbeat | grant_watch/poll_lease.py:151-180 | In any history an expired lease is valid again exactly after a heartbeat of it that read the clock before the expiry and reached the database at or after it, less than a duration after its reading |
| PollClock.LateHeartbeat | grant_watch/poll_lease.py:151-180 | From an acquisition on, a history in which a heartbeat of any such delay revives its lease |
| PollClock.NeverRevivesIfTimely | grant_watch/poll_lease.py:151-180 | No history revives a lease exactly if no heartbeat may reach the database after its reading and within a duration of it |
| PollClock.ExpiredForGood | grant_watch/poll_lease.py:131-180 | Then an issued lease that is not valid at one instant is valid at no later one |
| PollLease.CommitsAreCheckedTwice | grant_watch/poll_lease.py:183-227 | In any history a commit was preceded by two passed checks of its lease, on the row that is still there at the commit |
| LeaseKeeping.OverByTheLimit | grant_watch/poll_lease.py:254-337 | Whatever other processes, transactions and releases come between, a lease renewed only up to a limit is valid at no instant from the limit on |
| LeaseKeeping.LeaseKeeper.Checkpoint | grant_watch/poll_lease.py:330-337 | Succeeds exactly within the runtime, not lost, and owning the lease by its reading |
| LeaseKeeping.LeaseKeeper.Run | grant_watch/poll_lease.py:308-337 | Beats of the thread, checkpoints, leaving, a renewal still under way then, and acquisitions, renewals and releases of others, in any order: the end is what the turns make of it, and at no instant of the whole history is the lease valid past start, runtime and one duration |
| LeaseKeeping.Hold | grant_watch/cli.py:90-104 | The same from the acquisition on: refused exactly while another lease is live, otherwise the keeper starts from the acquired row |
| PollStore.UpsertKeepsValid | grant_watch/db.py:143-310 | Lead keys stay unique, every observation has its event, and a lead's current event is its own |
| PollStore.AlertedIsOnFile | grant_watch/db.py:143-310 | After an alert the payload is on file under the item's own key |
| PollStore.OnFileIsSilent | grant_watch/db.py:143-310 | A payload on file never alerts |
| PollStore.AlertsExactly | grant_watch/db.py:143-310 | A stored item alerts exactly if its payload is new under its key and it is not suppressed; one neither stored nor drifted always; an adopted one exactly if its payload is new to that lead and to its key and it is not suppressed |
| PollStore.LeadOnColumns | grant_watch/db.py:100-310 | An item is projected onto the lead with its key, else the oldest lead with its URL and organization in the one source whose URLs name records, else a new one; no other lead changes and confirmations stay |
| PollStore.EventOnColumns | grant_watch/db.py:143-310 | An item adds an observation and an event exactly if its payload is new to it, and the event is then the current one of its lead |
| PollDriver.Tables.UpsertLead | grant_watch/db.py:143-310 | The statements, in order, leave the tables and the return value defined for the item |
| PollRuns.ConfirmationsAreEarned | grant_watch/db.py:354-388 | Over all histories of single runs a confirmation names a completed run that saw the lead, with that run's finish time |
| PollFencing.CommittedIsRunHistory | grant_watch/db.py:313-411 | Any number of processes, each with its own run and seen keys, writing through fenced transactions: what they commit, entry by entry of the lease's log, is a history of single runs that leaves the same store and runs |
| PollFencing.ConfirmationsAreEarned | grant_watch/db.py:329-411 | So over all processes, takeovers, pauses and failures a confirmation names a completed run that saw the lead, with that run's finish time |
| PollRuns.AlertsOnce | grant_watch/db.py:143-326 | The same payload of an item alerts twice only if the lead holding the item's key was re-keyed in between |
| PollDriver.Poller.ProjectItem | grant_watch/db.py:313-326 | Inside a run an item is projected and remembered as seen; a stored one alerts exactly if its payload is new and not suppressed, an unknown one always |
| PollDriver.Poller.Complete | grant_watch/db.py:354-388 | Completing confirms exactly the seen keys, in one transaction |
| PollDriver.Poller.PollSource | grant_watch/cli.py:106-159 | A completed source confirms exactly the leads under the items it returned; after a failed or fenced one every lead keeps the confirmation it had, and new leads have none |
| FirecrawlMerge.Validate | grant_watch/firecrawl_ledger_migration.py:176-230 | The counting loops accept exactly the ledgers whose balances, identities and state rows reconcile |
| FirecrawlMerge.Merge | grant_watch/firecrawl_ledger_migration.py:233-327 | Succeeds exactly for valid, consistent ledgers whose ceilings agree or are reviewed and hold; the result is the merge |
| FirecrawlLaws.MergedIsValid | grant_watch/firecrawl_ledger_migration.py:176-327 | The merged ledger passes validation |
| FirecrawlLaws.MergeIsUnique | grant_watch/firecrawl_ledger_migration.py:233-327 | The relation determines the merged ledger |
| FirecrawlLaws.MergingInStages | grant_watch/firecrawl_ledger_migration.py:233-327 | Merging contiguous groups and then their merges fails exactly when merging all at once fails, and gives the same ledger |
| FirecrawlLaws.MergingAgainIsIdentity | grant_watch/firecrawl_ledger_migration.py:233-327 | Merging a merged ledger changes nothing |
| FirecrawlBalance.CallsAreConserved | grant_watch/firecrawl_ledger_migration.py:240-300 | Every source attempt appears exactly once; reserved calls lie between each source's and the sum, within the ceiling |
| FirecrawlBalance.StrictestStateWins | grant_watch/firecrawl_ledger_migration.py:302-327 | The merged back-off and next call are no earlier than any source's |
| FirecrawlColumns.StateOnColumns | grant_watch/firecrawl_ledger_migration.py:302-327 | No back-off and no next call of any ledger is shortened; the rows kept are a latest among those with the same back-off or next call; the flag is set exactly if some ledger's is |
| FirecrawlColumns.FlagOnColumns | grant_watch/firecrawl_ledger_migration.py:154-164 | If every ledger's flag says whether it has an attempt under way or lost without a hash, so does the merged one |
| FirecrawlColumns.PeriodsOnColumns | grant_watch/firecrawl_ledger_migration.py:262-300 | A merged period carries the earliest creation and latest update of its rows, counts the distinct calls, and has the reviewed ceiling or the agreed one |
| FirecrawlColumns.ValidReconciles | grant_watch/firecrawl_ledger_migration.py:176-230 | Validation accepts exactly the ledgers that reconcile, column by column |
| FirecrawlColumns.MergesExactlyWhen | grant_watch/firecrawl_ledger_migration.py:233-300 | Ledgers merge exactly if each reconciles, they tell one story of every attempt and request, and every period has a positive ceiling its distinct calls keep to |
| FirecrawlBalance.FlagIsRecomputed | grant_watch/firecrawl_ledger_migration.py:154-164 | Reading the merged ledger back recomputes its reconciliation flag |
| FirecrawlBalance.SourceOrderIsIrrelevant | grant_watch/firecrawl_ledger_migration.py:233-327 | Source order changes neither success nor content, except which of equal timestamps is kept |
| ZoomInfoMerge.ValidateSource | grant_watch/zoominfo_ledger_state.py:141-200 | Accepts exactly the ledgers whose balances are the bills of their settled spends |
| ZoomInfoMerge.Merge | grant_watch/zoominfo_ledger_state.py:211-319 | Succeeds exactly for valid, consistent sources with agreeing limits that hold and no key collision; the result is the merge |
| ZoomInfoLaws.MergeIsLossless | grant_watch/zoominfo_ledger_state.py:238-277 | Restoring legacy keys gives exactly the union of source spends, each once; merged keys are unique |
| ZoomInfoLaws.CollisionFreeKeysSuffice | grant_watch/zoominfo_ledger_state.py:203-208 | A collision-free digest never causes the key refusal |
| ZoomInfoLaws.ConsumedIsBilled | grant_watch/zoominfo_ledger_state.py:279-319 | Total consumed credits are total billed credits |
| ZoomInfoColumns.ChargeIsCost | grant_watch/zoominfo_ledger_state.py:175-195 | A spend that validates is charged what its billed column says, to its own period only |
| ZoomInfoColumns.ValidReconciles | grant_watch/zoominfo_ledger_state.py:141-200 | Validation accepts exactly the sources that reconcile, column by column |
| ZoomInfoColumns.MergesExactlyWhen | grant_watch/zoominfo_ledger_state.py:211-319 | Sources merge exactly if there is one, their scopes are distinct and well formed, each reconciles, they tell one story of every spend, no two are written under one key, and agreed limits cover what the distinct spends cost |
| ZoomInfoColumns.ConsumedIsBilledColumn | grant_watch/zoominfo_ledger_state.py:279-319 | The consumed columns of the merged periods are the billed columns of the merged spends, in total and period by period |
| ZoomInfoLaws.ConsumptionIsBounded | grant_watch/zoominfo_ledger_state.py:283-305 | A period consumed at least what any source counted, at most their sum, within the limit |
| ZoomInfoColumns.ConsumedAtMostColumns | grant_watch/zoominfo_ledger_state.py:283-305 | A merged period has consumed at most the sum of the sources' consumed columns |
| ZoomInfoLaws.OrderRefusesNothing | grant_watch/zoominfo_ledger_state.py:211-319 | The order of the sources does not decide whether they merge |
| ZoomInfoLaws.SourceOrderIsIrrelevant | grant_watch/zoominfo_ledger_state.py:211-319 | The merged spends do not depend on source order |
| ZoomInfoLaws.BalancesIgnoreOrder | grant_watch/zoominfo_ledger_state.py:283-305 | Nor do the balances, up to how equal update times are written |
| UserMemory.ReachableIsValid | grant_watch/user_memory.py:230-317 | After any operations in any order, supersessions form a forest within a user and lead only to rows that expire no earlier |
| UserMemory.SupersedeKeepsValid | grant_watch/user_memory.py:458-521 | A new edge joins two unsuperseded rows and closes no cycle |
| UserMemory.SupersedesExactly | grant_watch/user_memory.py:458-521 | A correction applies exactly to two standing rows of one user and kind, the newer an explicit correction of the older, in order, with nothing else of that kind standing |
| UserMemory.ForgetKeepsValid | grant_watch/user_memory.py:541-549 | Forgetting a user leaves no dangling reference |
| UserMemory.PurgeKeepsValid | grant_watch/user_memory.py:552-562 | Purging leaves no dangling reference |
| UserMemory.EveryChainEnds | grant_watch/user_memory.py:458-521 | From every row the supersessions lead, without repetition, to one current row of the same user and kind |
| UserMemory.PurgeIsInvisible | grant_watch/user_memory.py:552-562 | When the purge runs changes nothing that can be recalled |
| MemoryStore.Memories.Remember | grant_watch/user_memory.py:230-317 | A sound fact becomes a new row, or re-arms an expired one, or is on file unexpired; nothing else changes |
| MemoryRecall.RememberedIsRecalledUnlessWithdrawn | grant_watch/user_memory.py:284-317 | Over any history, a remembered fact can be recalled exactly unless it was corrected earlier and has not been put on file again since |
| MemoryRecall.SaidAgainInVain | grant_watch/user_memory.py:284-317 | A reachable table in which a fact said again is on file, unexpired and known, and cannot be recalled |
| MemoryStore.Memories.Supersede | grant_watch/user_memory.py:458-521 | Applies exactly to two active, ordered, corrected peers that are alone; then the newer one is the only active memory of its kind |
| MemoryStore.Memories.Recall | grant_watch/user_memory.py:354-386 | Up to the limit, every visible row, freshest first; what is left out is no fresher |
| MemoryStore.Memories.Capture | grant_watch/user_memory.py:658-769 | Item by item: skipped, known, kept whole with its correction, or rolled back; only the at most 20 freshest memories can be retired, no other user's row changes, every sound addition ends up on file, and the count is the number of items kept |
| MemoryStore.OfferedMeans | grant_watch/user_memory.py:716-733 | A replacement is considered exactly if its target was offered, is of the proposed kind, and is the only offered one of that kind |
| MemoryStore.InvertsMeaning | grant_watch/user_memory.py:119-142 | True exactly if some occurrence of the quote has a negator among the four words before it |
| Reminders.FirstAfter | grant_watch/reminders.py:404-410 | The loop ends at due plus a positive number of steps, the first such instant after now |
| Reminders.NextIsUnique | grant_watch/reminders.py:404-410 | There is one such instant, and it is later than the due time, so occurrence keys strictly increase |
| Reminders.RhythmIsKept | grant_watch/reminders.py:373-415 | A daily reminder keeps its time of day, a weekly one also its day of the week, and the next one is the first after now |
| Reminders.OptOutMeans | grant_watch/reminders.py:135-153 | Opting out of everything or of reminders counts, and nothing else does |
| Reminders.DeliveriesAreBounded | grant_watch/reminders.py:373-403 | A reminder records at most 12 deliveries, 13 over both channels |
| Reminders.AdvanceKeeps | grant_watch/reminders.py:373-415 | Moving on keeps room for one more occurrence as long as fewer than 12 were delivered |
| ReminderDesk.Desk.Create | grant_watch/reminders.py:214-276 | A malformed request is refused, then one of someone who opted out, then one with unreadable filters; otherwise exactly one active reminder is added under a new id |
| ReminderDesk.Desk.SetOptOut | grant_watch/reminders.py:156-197 | Opting out cancels exactly the user's active reminders and says how many |
| ReminderDesk.Desk.Advance | grant_watch/reminders.py:373-415 | Retires a one-off or exhausted reminder, otherwise moves it to its next instant |
| ReminderDesk.Desk.DeliverOn | grant_watch/reminder_worker.py:87-149 | At most one message, only for an unclaimed occurrence and channel, after claiming it |
| ReminderDesk.DeskKeepsItsPromises | grant_watch/reminders.py:373-415 | At every desk any mix of operations and deaths can leave, a reminder has recorded at most 12 deliveries (13 over both channels), and every message was claimed and went out once |
| ReminderDesk.Desk.Run | grant_watch/reminder_worker.py:152-234 | Messages go out for at most one due, active reminder of someone who has not opted out, and none was claimed before; a dry run sends and claims nothing; when none goes out, every due reminder was cancelled because its user opted out or closed because it could not be rendered |
| ReminderRace.AtMostOneAttempt | grant_watch/reminders.py:331-349 | In any interleaving of dying workers each occurrence is handed to each channel at most once |
| ReminderRace.ClaimedIsNeverRetried | grant_watch/reminder_worker.py:211-232 | A claimed occurrence is never attempted again, however its delivery turned out |
| PaidCalls.AtMostOneSpent | grant_watch/campaign/paid_calls.py:38-101 | Without the flag, any concurrent dying callers leave at most one attempt that is not provably unspent, the latest, and no gap in the numbers |
| PaidCalls.WhoMayStart | grant_watch/campaign/paid_calls.py:38-76 | In any history a caller that reads and goes straight on starts a new attempt exactly if there is none, the latest is provably unspent, or the flag is set and the latest is written off |
| PaidCalls.FlagIsSafeOnceTheCallerIsGone | grant_watch/campaign/paid_calls.py:38-101 | For any rule on setting the flag: no history overwrites a completion or buys again what completed, exactly if the rule forbids the flag while the caller of the in-flight attempt is still working |
| PaidCalls.FlagRacesCompletion | grant_watch/campaign/paid_calls.py:48-70 | From any history at whose end the rule sets the flag while the caller is working: the caller completes, the retry overwrites the completion and buys again |
| PaidCalls.CodeHasNoSuchRule | grant_watch/campaign/paid_calls.py:48-70 | With the flag left to the operator it happens |
| PaidCalls.PaidLedger.Execute | grant_watch/campaign/paid_calls.py:27-101 | For one caller at a time: refused exactly after a completed attempt, or without the flag after a possibly spent one; otherwise the work is started at most once and the new attempt records what it did, a flagged retry writing off the one still running; a death leaves one of the durable states on the way |
| EntityCoverage.WriteTasks | grant_watch/entity_coverage.py:213-250 | Refused exactly for a bad GEOID, a line break or an overlong shard; otherwise each shard holds its tasks by GEOID and no other file remains |
| EntityCoverage.WritableOnColumns | grant_watch/entity_coverage.py:213-236 | Tasks can be written exactly if every GEOID is a number of three digits or more, no field breaks a line, and no shard gets more than 999 |
| EntityCoverage.ShardsAreOrdered | grant_watch/entity_coverage.py:220-233 | The file of a shard holds exactly its tasks, by GEOID, ties in the order given |
| EntityCoverage.LoadTasks | grant_watch/entity_coverage.py:279-308 | The loaded list is sorted and holds, rank by rank, the files' rows in file order, keys unique |
| EntityCoverage.RowsOnColumns | grant_watch/entity_coverage.py:279-303 | Files load, but for repeated keys, exactly if none holds more than 999 rows and each is clean, of seven digits, and in the file of its state and third digit |
| EntityCoverage.LoadedRowsAreStripped | grant_watch/entity_coverage.py:286-291 | Everything loaded is a row of some file without its surrounding blanks |
| EntityCoverage.RoundTrip | grant_watch/entity_coverage.py:236-308 | Whatever order the files are read in, sorting their rows gives the stable sort of the tasks written |
| EntityCoverage.ReloadsSorted | grant_watch/entity_coverage.py:253-266 | For storable tasks the staged round trip cannot fail |
| EntityCoverage.TaskStore.Replace | grant_watch/entity_coverage.py:253-276 | The universe is replaced as a whole or not at all, always for storable tasks, and then loads back as the sorted tasks |
| CardFreshness.OrderIsOrdinal | grant_watch/scoring.py:115-138 | Comparing dates field by field is comparing day counts |
| CardFreshness.CutoffExists | grant_watch/scoring.py:115-126 | The cutoff exists for every date but the first half of year 1 |
| CardFreshness.CutoffDistance | grant_watch/scoring.py:115-126 | It lies 181 to 184 days back |
| CardFreshness.CutoffMonotone | grant_watch/scoring.py:115-126 | It never moves back |
| CardFreshness.FreshDaysAreAnInterval | grant_watch/scoring.py:129-138 | The days on which an award may be pushed form one interval that starts with its own date |
| CardFreshness.CardFreshAwardsAreGold | grant_watch/scoring.py:66-112 | A card-fresh award with money and an open window is gold, and gold means exactly such an award dated within 360 days |
| CardFreshness.GradesExactly | grant_watch/scoring.py:66-112 | Awards without money or an open window are watched, older or undated ones silver; requests for proposals are silver until the deadline has passed and never gold; anything else is watched |

## Left out

- Slack, Salesforce, Firecrawl, ZoomInfo, Anthropic and mail calls are arbitrary outcomes; HTTP, HTML,
  ZIP and command-line handling and prompt text are not modelled.
- `slack/drip.py`, the account gateway and `zoominfo_credits` are not part of this model, so the daily
  cap they share with the visible code is stated for the visible writers only.
- Files: JSON and CSV text, atomic renames, fsync and directory clean-up. A batch directory or task
  universe appears or is replaced as a whole.
- Discovery: secrets and URLs are redacted before the model sees a payload; `select_targets`,
  `completed_request_keys` and `summarize_batch` would only add easy members. Seconds are real numbers.
- DiscoveryModels.ConvertPayload: redaction, its key clashes and the check of the limit's own range come
  before or after it and are not modelled.
- DiscoveryStore.ValidateCheckpoint: a digest is a number, so that stored digests are 64 hexadecimal
  digits is not checked.
- DiscoveryStore.ValidateBatch: nor is it for the task ids in manifests.
- DiscoveryStore.BatchStore.LoadCheckpoints: stored rows are values, so the field-by-field checks of their
  JSON and the check that a loaded row is redacted are not modelled.
- DiscoveryRun.Worker.ExecuteBatch: the completions of other stored batches are an input, because their
  contents do not change under the two locks.
- Delivery: candidate review, card rendering, channel guards, `posts` and lead outcomes are inputs of a
  tick; the `quarantine_lead` rows use other keys and do not meet the award keys.
- Lease: waiting for the write lock has no time limit.
- LeaseKeeping.LeaseKeeper.Run: the runtime check, made by the monotonic clock, and the reading that the
  renewal uses are one instant; the write may come later.
- DeliveryRun.EverySlotReachable: daylight-saving changes are not modelled; minutes count from Pacific
  midnight.
- PollStore: projected columns that are only overwritten, and the run counters.
- PollRuns.AlertsOnce: `seed_from_csv` and `reconcile_seed_duplicates` are not among the modelled writers.
- UserMemory: regular-expression text checks (`_explicit_correction`, `fact_is_grounded`, substring
  search) are inputs; instants are compared as numbers, not as ISO texts.
- Reminders: `cancel_all`, `clear_optout`, and the text of the search specification and its rendering.
- ReminderDesk.Desk.Run: workers one after another; concurrent ones are covered by `ReminderRace`.
- CardFreshness: dates so early that 360 days before them do not exist, where grading raises.
- EntityCoverage.WriteTasks: a shard of GEOIDs of different lengths is ordered by number, where the source
  orders by text; loading refuses such shards.
- EntityCoverage: `build_entity_tasks`, `validate_entity_tasks` and drift reports would only add easy members.
- Persequor briefs, `RawItem.raw_json`, migrations, card rendering, territories, catalog validation,
  `lead_claims`, `contact_fill` and `announce`.
