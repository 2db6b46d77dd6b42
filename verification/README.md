# Trade collector, delivery and notification model

This project models, in Dafny, the part of the repository that turns a stream of copy-trading
fills into position estimates, delivers them to a server over an unreliable network and tells
people about them, and proves what that pipeline promises. Three small cores beside it are
modelled too. `dafny verify dfyconfig.toml` checks everything.

**The trade ledger** (`TradeModels`, `TradeReconciler`, `ReplayTheorems`, `StepTheorems`,
`FlatBaseline`, `Valuation`, `TradeStore`, `PositionView`, `FetchTheorems`, `Refetch`,
`PostTheorems`, `FetchOutcome`). Revisable trade records are replayed into one position per
(symbol, side) by a machine of seven operations with average-cost entry prices. A fetch merges an
overlapping window into a persistent ledger, replays all of it, rewrites the position table and
enqueues posts, in one transaction. The loops of the source are methods (`ReconcileRecords`,
`MergeRecords`, `DiffPositions`, `BuildPosts`, ...), each proved equal to a specification function;
the theorems are about those functions: replay does not depend on arrival order, an incomplete
history only weakens, symbols do not influence each other, quantities have a closed form, the books
balance, any cut of the same records into windows ends in the same ledger, and the posts and the
change list are exact.

**The collector and the server** (`CollectorDb`, `CollectorApi`, `Delivery`, `Scheduler`,
`ScheduleTheorems`, `BinanceCopy`, `PollTheorems`, `Reachable`, `Snapshots`, `Pricing`,
`PostAcceptance`, `TradeStructurer`, `EndToEnd`, `Arrival`, `GapFree`). The local database, the
scheduler, the provider and the upload endpoints are classes whose methods update their fields as
the source does. On top stand invariants over all runs: in every state any sequence of scheduler
rounds can reach, the position table is a view of the ledger and everything pending is acceptable
to the server; every subscription is called again when its interval is over; posts are neither lost
nor stored twice whatever requests and replies get lost, and each trade post arrives; and no hole
in the source's history goes unnoticed.

**Notifications** (`Notifications`, `NotificationTheorems`, `RetryTheorems`, `DispatchTheorems`,
`BatchRelease`, `ReleaseRounds`): the batch barrier and when it opens, one event per (anchor, rule),
who is notified, and retries with backoff, over every run.

**Three small cores**: the balanced-object scanner against a JSON printer (`JsonScanner`), the
infinite scroll (`SignalFeed`) and the profile-identity migration (`ProfileRepair`).
The specification functions are themselves told case by case in terms of inputs, clock and fields
(`StepFollows`, `RefusedExactly`, `EveryRowIsPriced`, `PollExactly`, `VisitExactly`, `UploadExactly`,
`VerdictExactly`, `AnswerExactly`, `DispatchReaches`, `RetryReaches`, `ScanExactly`, `ProfileExactly`).
`Prelude` holds the ordering vocabulary: `Arranged` is the one meaning of every `ORDER BY`,
`sorted` and `.sort`.

How the model reads the source:

- Strings that are only compared (record ids, revisions, symbols, platforms, accounts, handles,
  signal ids) are integers in the same order. Timestamps are integers in seconds, decimals are
  reals.
- Identities made by joining or hashing strings (external ids, batch ids) are the tuples they are
  made of, so they are injective by construction. The source joins account, id and revision with
  `:`, which is injective because the provider's ids and revisions are hexadecimal digests.
- A database transaction is computed on values and then stored in one assignment; a rejected one
  stores nothing. Outbox rows and raw posts are kept in sequences in the order of their ids.
- What a provider, the network, the push service and the clock answer are parameters over which
  the theorems quantify.
- A notification signal is named by its raw post, of which it is the only one.

What the theorems take for granted of the world outside: a page of the source has at most 100
rows and mark prices are positive (`Promised`, which `HealthyAnswersKeepPromise` derives from the
provider); the source only appends in (event time, id) order (`IsSource`) and
a page is a contiguous slice of it, in any order (`Lists`); the clock does not run back between
polls (`OfPeriod`, for the replay of the source only); a request for a
period reports the true number of its records (`Serves`, for completeness only); accounts are not
shared by subscriptions (`Honest`, for the release of a batch only); the signal list grows at its
head and a page holds at least one item; profile references resolve and a subscription's
platform is not empty.

Where the code does less than one might expect, the exact condition is proved:

- The server insists on a positive entry price; the provider lets an average price of zero
  through. `SnapshotAccepted` says a snapshot is taken exactly when no row has a zero entry price
  (and it has at most 1000 rows), `RowPricedExactly` says from the ledger and the marks when that
  happens, and `FreeFillRefused` carries an input from the poll to the refusal.
- Polling records again is not always without effect: every poll observes them later, so a
  superseded revision that is listed again overtakes the standing one. `RefetchKeepsWinnersExactly`
  is the condition, `RevivedRevision` an input; the provider's revision is a digest of fields its id
  digests too, so its records have one revision each and `PollAgainIsSilent` holds.
- A refresh of the signal feed can miss items for good: `HeldAtTheEndExactly`, `MissedItem`.
- A load of the signal feed that a refresh overtakes can cut off a live item, until a later refresh
  raises the total again: `CutDropsNothingExactly` and, in terms of the totals a caller sees,
  `TimelyMerge`; `OvertakenLoad` is an input.
- The server's action table fits every INCREASE and DECREASE, but not an ADD that reopens a flat
  bucket nor a REDUCE that empties one: `ActionFitsExactly`, with the history in `RefusedHistory`.
- The upload backoff is capped at 300 s in the code but its exponent at 8, so it never exceeds
  256 s: `BackoffCeiling`.
- The stale mark is put on every row, also on flat and unknown ones, so a row can be
  stale and unknown at once: `StaleMarkReads`.

## Model

| member | source | states |
|---|---|---|
| TradeReconciler.PositionBook.ApplyRecord | collector/collector_agent/trade_reconciler.py:95-213 | the in-place update of the bucket dictionary, for all seven operations, is the specification step `Apply`: new dictionary, action and position; `StepFollows` and `ReverseFollows` say what that step is |
| StepTheorems.StepFollows | collector/collector_agent/trade_reconciler.py:95-178 | every operation but REVERSE, field by field: side, quantity, entry, leverage, status, confidence, date and action of its bucket from what the bucket held; no other bucket changes |
| StepTheorems.ReverseFollows | collector/collector_agent/trade_reconciler.py:179-208 | a REVERSE to a direction with another active bucket of the symbol closes all of those and opens its own at the record's terms; any other REVERSE makes its bucket UNKNOWN |
| StepTheorems.UncoveredReduction | collector/collector_agent/trade_reconciler.py:145-164 | a REDUCE or DECREASE of an absent, inactive or smaller bucket is UNKNOWN under incomplete history and FLAT under complete history |
| TradeReconciler.PositionBook.Flatten | collector/collector_agent/trade_reconciler.py:180-200 | the loop of a REVERSE closes exactly the given buckets and touches no other |
| TradeReconciler.GroupRevisions | collector/collector_agent/trade_reconciler.py:219-221 | the dictionary maps every id to its revisions in arrival order and has no other key |
| TradeReconciler.SelectRevision | collector/collector_agent/trade_reconciler.py:224-227 | selects the first of the greatest by (observed at, revision), and flags the group as corrected exactly when two revisions differ |
| TradeReconciler.SelectEffective | collector/collector_agent/trade_reconciler.py:219-234 | the records replayed are one winner per id, in (event time, id, revision) order |
| TradeReconciler.ReconcileRecords | collector/collector_agent/trade_reconciler.py:216-247 | the imperative replay returns the events and positions of the specification `Reconcile`; `EventsTell`, `WinnerExactly` and `IncompleteClosedForm` say what these are |
| StepTheorems.WinnerExactly | collector/collector_agent/trade_reconciler.py:224-225 | the record that stands for an id is the one no other of its listings exceeds by (observed at, revision) |
| StepTheorems.EventsTell | collector/collector_agent/trade_reconciler.py:236-247 | each event carries its record and the bucket right after it; its action is a correction exactly when the id was seen in two revisions, else what the operation did |
| StepTheorems.EventsAscend | collector/collector_agent/trade_reconciler.py:228-234 | events come in the order of time, record id and revision |
| StepTheorems.IncompleteClosedForm | docs/data-sources.md:39 | for every reconciliation of fills under incomplete history: a bucket is UNKNOWN if and only if its net sum was ever negative, otherwise it holds the net sum with LOW confidence and is FLAT exactly when that is zero |
| ReplayTheorems.ReplayIgnoresArrivalOrder | collector/collector_agent/trade_reconciler.py:216-247 | two listings of the same records, in any order and with repetitions, give equal events and positions |
| ReplayTheorems.StaleRevisionMovesNothing | collector/collector_agent/trade_reconciler.py:224-227 | a revision that loses to the selected one changes no position, wherever it arrives |
| ReplayTheorems.ReplayWeakens | collector/collector_agent/trade_reconciler.py:95-213 | over all seven operations every bucket of the incomplete reading equals the complete one on side, quantity, entry, leverage and status or is UNKNOWN, with confidence never above LOW |
| ReplayTheorems.IncompleteHistoryOnlyWeakens | collector/collector_agent/trade_reconciler.py:216-247 | the same for the positions and for the position after every event of a whole reconciliation; which contradictions become UNKNOWN is `UncoveredReduction` and `IncompleteClosedForm` |
| ReplayTheorems.SymbolsAreIndependent | collector/collector_agent/trade_reconciler.py:95-213 | over all seven operations, REVERSE included, a symbol's positions are what its own records alone would give |
| ReplayTheorems.ReverseLeavesOneSide | collector/collector_agent/trade_reconciler.py:179-208 | after a REVERSE at most the reversed bucket of the symbol is active, and it is active exactly when another one was to be reversed |
| ReplayTheorems.OpenAndCloseForget | collector/collector_agent/trade_reconciler.py:103-111 | after an OPEN or CLOSE of a bucket, its later positions do not depend on anything before |
| ReplayTheorems.ReplayShape | collector/collector_agent/trade_reconciler.py:24-69 | every replayed position is well formed: active means a directional side and a positive quantity, flat means zero without entry price, unknown means nothing claimed |
| ReplayTheorems.ReplayDated | collector/collector_agent/trade_reconciler.py:33-69 | no position is dated before the earliest record |
| FlatBaseline.BucketsAreIndependent | collector/collector_agent/trade_reconciler.py:95-213 | without REVERSE a bucket depends only on its own records |
| FlatBaseline.HeldAboveLow | collector/collector_agent/trade_reconciler.py:112-175 | under complete history the held quantity is the net sum minus its lowest prefix |
| FlatBaseline.LowReached | docs/data-sources.md:36 | the lowest point is one of the prefix sums |
| FlatBaseline.LowBounds | docs/data-sources.md:36 | and no prefix sum lies below it: the reference definition of the closed form |
| FlatBaseline.QuantityClosedForm | docs/data-sources.md:36 | for a whole reconciliation of fills: quantity is S_n minus the minimum of S_0..S_n, FLAT exactly when that is zero, no UNKNOWN and no reverse position |
| FlatBaseline.CostBasis | collector/collector_agent/trade_reconciler.py:76-92 | quantity times entry price is exactly the cost put in and not yet taken out |
| FlatBaseline.BooksBalance | collector/collector_agent/trade_store.py:205-239 | sales minus purchases plus the holding at the mark price equals gain booked at the reductions plus the row's estimated PnL, mirrored for SHORT |
| FlatBaseline.EntryWithinPaid | collector/collector_agent/trade_reconciler.py:76-92 | for a whole reconciliation of fills, an active position's entry price lies between the lowest and highest increase price since its bucket last opened |
| FlatBaseline.EntryPositiveExactly | collector/collector_agent/providers/binance_copy.py:290-291 | for a whole reconciliation of fills, it is positive exactly when something was paid since then |
| TradeStore.ValidateFetch | collector/collector_agent/trade_store.py:269-297 | returns the first error of a fetch in the source's order, or none |
| TradeStore.MergeRecords | collector/collector_agent/trade_store.py:319-354 | the insert-or-update loop yields the merged ledger and inserted keys, or a collision |
| TradeStore.RepriceRows | collector/collector_agent/trade_store.py:394-444 | each row is the inferred position valued as `Repriced` says, which `EveryRowIsPriced` states for the rows of a fetch |
| TradeStore.DiffPositions | collector/collector_agent/trade_store.py:140-162 | the change list is the difference of the two position maps in key order |
| TradeStore.BuildPosts | collector/collector_agent/trade_store.py:459-491 | posts exactly the events whose keys were inserted, all under one batch |
| TradeStore.ComputeFetch | collector/collector_agent/trade_store.py:300-522 | the whole transaction on values: rejected with its error, or the new tables and posts; `RefusedExactly`, `EveryRowIsPriced`, `FetchedState` and `PostsReport` say which |
| FetchOutcome.EveryRowIsPriced | collector/collector_agent/trade_store.py:394-444 | after an accepted fetch every row carries the fetched mark with the account's time, or else the latest observation in the ledger, when its symbol was priced; otherwise the mark and time of the row it replaces, or none; and notional, margin and PnL are exactly those of quantity, mark, leverage and entry, or absent |
| FetchOutcome.FetchedState | collector/collector_agent/trade_store.py:446-521 | an accepted fetch ends the baseline, keeps the start, moves the checkpoint only to a candidate and replaces the account only by one that came with it |
| FetchOutcome.FirstObserved | collector/collector_agent/trade_store.py:319-354 | a ledger row keeps its first observation; a new row takes it from the first record of the window with its key |
| FetchOutcome.RefusedExactly | collector/collector_agent/trade_store.py:269-354 | which error a fetch is refused with: the first offending record tells a wrong target from an early one, only then the checkpoint counts, and only then two contents of one revision |
| FetchOutcome.PostsReport | collector/collector_agent/trade_store.py:459-491 | the posts repeat events of the replay in its order: record, action, the estimate after it, identity and time |
| FetchOutcome.ChangesTell | collector/collector_agent/trade_store.py:140-162 | a bucket is in the change list exactly when side, quantity, entry or leverage differ, with the estimates of the old and the new row, a missing row counting as flat |
| FetchOutcome.ChangesAscend | collector/collector_agent/trade_store.py:140-162 | the change list goes by symbol, LONG before SHORT before UNKNOWN |
| PositionView.StaleMarkReads | collector/collector_agent/trade_store.py:525-536 | the stale mark keeps the table a view, including rows that were flat or unknown |
| PositionView.UnknownMarkReads | collector/collector_agent/trade_store.py:539-553 | so does the unknown mark, whatever lay on the table before |
| PositionView.AcceptedFetchRestoresImage | collector/collector_agent/trade_store.py:356-444 | after an accepted fetch the table reads exactly as the replay of the whole merged ledger, whatever marks lay on it |
| PositionView.RestartedIsView | collector/collector_agent/db.py:59-107 | a changed start time leaves the exact view of an empty ledger under the new start |
| FetchTheorems.MergeHolds | collector/collector_agent/trade_store.py:319-354 | a window merges exactly when no (id, revision) has two contents, and then the ledger holds the union with the latest observation times |
| FetchTheorems.FetchAcceptedExactly | collector/collector_agent/trade_store.py:269-354 | a fetch is accepted if and only if target, dates, checkpoint and contents are in order |
| FetchTheorems.BatchingIndependence | collector/collector_agent/trade_store.py:300-444 | two sequences of accepted fetches with the same union of records end with the same ledger records and the same estimates |
| Refetch.RefetchOnlyDates | collector/collector_agent/trade_store.py:323-338 | polling known records again, whenever observed, keeps keys, contents and first observations, sets each last observation to the latest, and posts nothing |
| Refetch.SameWinnersExactly | collector/collector_agent/trade_reconciler.py:224-234 | with equal contents the replay sees the same history if and only if the same revision stands for every record, and then gives the same positions |
| Refetch.RefetchKeepsWinnersExactly | collector/collector_agent/trade_reconciler.py:224-227 | a refetch keeps every standing revision if and only if every record of the window either does not overtake the revision standing in the ledger or comes with a listing of that one observed no earlier |
| Refetch.RefetchKeepsEstimates | collector/collector_agent/trade_store.py:319-444 | under that condition, readable before the call, no estimate changes |
| Refetch.RevivedRevision | collector/collector_agent/trade_store.py:332-337 | an input without it, reached from nothing by accepted polls: a superseded revision listed again makes itself stand, halves the position and posts nothing |
| Refetch.SingleRevisionsRefetch | docs/data-sources.md:35 | with one revision per record, polling again posts nothing and gives the estimates the ledger stood for, whatever marks lay on them |
| Refetch.BatchingIgnoresObservation | collector/collector_agent/trade_store.py:300-444 | with one revision per record, two sequences of fetches with the same contents, observed whenever, end with the same keys, contents and estimates |
| FetchTheorems.CheckpointsAdvance | collector/collector_agent/trade_store.py:292-297 | over any run of accepted fetches the checkpoint never moves backwards |
| PostTheorems.ChangesAreExact | collector/collector_agent/trade_store.py:140-162 | change keys are unique, patching the old positions with the list gives the new ones, and the list is empty exactly when nothing changed |
| PostTheorems.FetchPostsAreExact | collector/collector_agent/trade_store.py:459-491 | after the baseline exactly one post per key that is new and effective, all sharing one batch id, true size and change list; a baseline fetch posts nothing |
| PostTheorems.NeverEnqueuedTwice | collector/collector_agent/trade_store.py:459-491 | within an epoch no (id, revision) is ever posted twice |
| PostTheorems.FirstFetchOfEpochIsSilent | docs/data-sources.md:34 | after a changed start time the next accepted fetch fills the ledger and posts nothing |
| CollectorDb.CollectorStore.EnsureTradeStart | collector/collector_agent/db.py:59-107 | a changed start time clears ledger, rows, account and the subscription's outbox and sets the new start; an unchanged one does nothing |
| CollectorDb.CollectorStore.RecordFetch | collector/collector_agent/db.py:128-137 | posts of a social source are enqueued once each and the checkpoint stored |
| CollectorDb.CollectorStore.RecordTradeFetch | collector/collector_agent/trade_store.py:300-522 | the transaction on the stored tables; an error leaves every table as it was |
| CollectorDb.CollectorStore.MarkTradePositionsStale | collector/collector_agent/trade_store.py:525-536 | every row of the subscription becomes stale, nothing else changes |
| CollectorDb.CollectorStore.MarkTradePositionsUnknown | collector/collector_agent/trade_store.py:539-553 | every row of the subscription loses its estimate, nothing else changes |
| CollectorDb.CollectorStore.PendingPosts | collector/collector_agent/db.py:200-202 | the oldest rows in order, at most a hundred, and none is withheld unless the page is full |
| CollectorDb.CollectorStore.ApplyUploadResults | collector/collector_agent/db.py:204-220 | each result removes the oldest pending row of its external id, into the dead letters when invalid |
| CollectorApi.Api.CollectorPosts | backend/app/routers/collector.py:290-335 | the loop stores what is admissible and new and answers one status per post in order |
| CollectorApi.Api.ReplacePositions | backend/app/routers/collector.py:338-476 | a refused snapshot changes nothing; an accepted one makes the subscription's rows and operations exactly those sent, stores the account if one is sent, and leaves other subscriptions alone |
| CollectorApi.Api.UpsertLines | backend/app/routers/collector.py:425-471 | deleting, updating and inserting by key ends with exactly the lines sent |
| Delivery.ResultsMatchByOrder | collector/collector_agent/db.py:204-220 | a reply with one terminal status per sent post in order removes exactly the sent rows and gives each its own status, even when subscriptions share external ids |
| Delivery.ReceiveShape | backend/app/routers/collector.py:296-335 | the server's reply is such a reply, refuses exactly the inadmissible posts and keeps identities unique |
| Delivery.VerdictExactly | backend/app/routers/collector.py:290-335 | the verdict on every upload: invalid exactly for an unknown subscription or platform, a time before the start, or batch data that is half, out of bounds or contradicts the payload; else duplicate exactly when its identity was stored or taken earlier in the request |
| Delivery.UnknownStatusSettlesNothing | collector/collector_agent/db.py:204-220 | a status the collector does not know leaves the row pending |
| Delivery.AdmittedIsHeld | backend/app/routers/collector.py:313-333 | every admissible post is held after the request, as new or as a duplicate |
| Delivery.StoredIsAdded | backend/app/routers/collector.py:296-335 | the server reports as stored exactly as many posts as it added |
| Delivery.NothingInvented | backend/app/routers/collector.py:313-324 | every row it added is an admissible uploaded post under its own subscription |
| Delivery.DeliveredPage | collector/collector_agent/scheduler.py:221-232 | a delivered upload takes exactly one page off the outbox, its refused posts into the dead letters |
| Delivery.TransmitAccounts | collector/collector_agent/scheduler.py:221-232 | whether request or reply is lost or not, a post stays pending, held by the server or dead |
| Delivery.AtMostOnce | backend/app/routers/collector.py:313-333 | over every interleaving the server stores each (platform, external id) at most once and forgets none |
| Delivery.NothingLost | collector/collector_agent/db.py:204-220 | over every interleaving a post leaves the outbox only into the server or the dead letters, unless its subscription is restarted |
| Delivery.Drains | collector/collector_agent/scheduler.py:221-232 | n delivered uploads with any failures between drain an outbox of up to 100 n posts |
| Scheduler.CollectorScheduler.HandleOutcome | collector/collector_agent/scheduler.py:134-195 | what the database, failure table and snapshot flag become after each provider outcome |
| Scheduler.CollectorScheduler.CallProvider | collector/collector_agent/scheduler.py:114-220 | a due visit claims, answers, syncs, reschedules and releases the subscription |
| Scheduler.CollectorScheduler.VisitSubscription | collector/collector_agent/scheduler.py:74-220 | one subscription's turn equals the specification `Visited`, which `VisitExactly` tells case by case |
| Scheduler.CollectorScheduler.UploadPending | collector/collector_agent/scheduler.py:221-232 | the upload attempt equals the specification `Uploaded`, which `UploadExactly` tells case by case |
| Scheduler.CollectorScheduler.RunOnce | collector/collector_agent/scheduler.py:70-232 | a whole round equals the specification `Round`: the visits in order, then one upload attempt |
| Scheduler.BackoffCeiling | collector/collector_agent/scheduler.py:226-228 | the delay doubles from 2 s, is 256 s from the eighth failure on and never reaches the cap of 300 s |
| Scheduler.NotCalledEarly | collector/collector_agent/scheduler.py:107-109 | a subscription just fetched is not due again before its interval, of at least a minute |
| Scheduler.RestartIsDueAtOnce | collector/collector_agent/scheduler.py:80-83 | a changed start time makes it due at once, unless disabled, busy, without provider or not started |
| ScheduleTheorems.VisitExactly | collector/collector_agent/scheduler.py:74-220 | a visit in terms of configuration, clock and stored start: when it opens a new epoch and with what tables, when the provider is called and what its answer, the next check and the list of runs become, and that otherwise nothing else changes |
| ScheduleTheorems.CalledAgain | collector/collector_agent/scheduler.py:107-109 | after a visit that called the provider, and whatever is visited or uploaded in between, the same configuration is not called before the interval is over and is called at any visit after it |
| ScheduleTheorems.CalledFromStart | collector/collector_agent/scheduler.py:102-106 | a subscription skipped before its start time is not called before it and is called at any visit from then on |
| ScheduleTheorems.OtherRoundKeepsTurn | collector/collector_agent/scheduler.py:70-232 | no round over other subscriptions changes when a subscription is called |
| ScheduleTheorems.FailuresTell | collector/collector_agent/scheduler.py:136-218 | what a visit shows under the platform: a failed sync, else a failed fetch, else nothing; and nothing changes under others |
| ScheduleTheorems.FailureMarks | collector/collector_agent/scheduler.py:136-195 | the rows after a failed visit, field by field: dated by the visit; after a gap nothing is claimed, after another failure of a trade source everything is, as stale |
| ScheduleTheorems.RoundRuns | collector/collector_agent/scheduler.py:70-232 | the subscriptions a round reports as run are ones it visited, none left over from an earlier round |
| ScheduleTheorems.SocialAnswer | collector/collector_agent/db.py:128-137 | a social answer adds those posts that are not pending yet, each once, and stores a checkpoint that came with it |
| ScheduleTheorems.UploadExactly | collector/collector_agent/scheduler.py:221-232 | an upload attempt in terms of the clock and the outbox: nothing, or a failure that sets the next time by the number of failures, or a reply that takes exactly one page off and ends the backoff |
| ScheduleTheorems.UploadedAgain | collector/collector_agent/scheduler.py:222-232 | after a failed upload nothing is sent before the wait of 2 to 256 s is over, and any attempt from then on is made: delivered it takes exactly one page, else it counts one failure more |
| BinanceCopy.BinanceCopyProvider.Fetch | collector/collector_agent/providers/binance_copy.py:49-174 | answer and health after every branch of the poll |
| PollTheorems.PollExactly | collector/collector_agent/providers/binance_copy.py:49-174 | a poll in the fields of the page: refused, idle, a gap or answered, each exactly when; answered exactly if tracking began within 30 days, the page is readable, holds the checkpoint's record and, with a start, is all there is |
| PollTheorems.FillsTell | collector/collector_agent/providers/binance_copy.py:229-356 | the records of an answer are those of the page's rows in the tracked period, all of them and nothing else, each repeating its row, in (event time, id, revision) order |
| BinanceCopy.BinanceCopyProvider.SortRows | collector/collector_agent/providers/binance_copy.py:247-255 | the normalised rows in sorted order |
| BinanceCopy.SortedPageShows | collector/collector_agent/providers/binance_copy.py:247-255 | sorting a page of a source slice, listed in any order, restores the slice |
| BinanceCopy.DirectionIsExposure | collector/collector_agent/providers/binance_copy.py:294-298 | on both sides a buy raises the net exposure by its quantity and a sell lowers it |
| BinanceCopy.AnswersComeFromSource | collector/collector_agent/providers/binance_copy.py:117-174 | whatever page of the source it sees, an answer is one slice of the source that contains the checkpoint and moves it to its own end |
| BinanceCopy.OverlapNeverBackwards | collector/collector_agent/providers/binance_copy.py:138-158 | a fetch that passes the overlap check is never refused for moving the checkpoint backwards |
| BinanceCopy.NoSilentGap | collector/collector_agent/providers/binance_copy.py:138-158 | after any run of accepted fetches the ledger holds every source record from any non-empty window on to the end of the last, where the checkpoint sits |
| BinanceCopy.HealthyAnswers | collector/collector_agent/providers/binance_copy.py:117-174 | a healthy answer is at most one page of fills of the tracked period, complete exactly when a start time is configured |
| BinanceCopy.HealthyAnswersKeepPromise | collector/collector_agent/providers/binance_copy.py:168-174 | so it meets what the reachability theorems assume of a provider |
| BinanceCopy.CompleteAnswerHoldsPeriod | collector/collector_agent/providers/binance_copy.py:123-136 | with a start time, an answer that is no gap holds every source record from the start time to the poll, in order |
| BinanceCopy.CompleteLedger | collector/collector_agent/trade_store.py:319-354 | and once accepted, so does the ledger |
| BinanceCopy.SourceHasOneRevision | collector/collector_agent/providers/binance_copy.py:299-329 | a ledger read from a source that lists each id once has one revision per record |
| BinanceCopy.RunStaysStored | collector/collector_agent/trade_store.py:319-354 | over any run of accepted fetches from the source, the ledger holds nothing else |
| BinanceCopy.PollAgainIsSilent | docs/data-sources.md:35 | after any such run from empty tables, polling known records again posts nothing and changes no estimate |
| BinanceCopy.HoldsHistory | collector/collector_agent/trade_reconciler.py:219-234 | a ledger of exactly the records of a history replays that history, in its order |
| BinanceCopy.TableReplaysSource | collector/collector_agent/trade_store.py:356-444 | with a start time, after an accepted answer the table is the replay of the source's own history from the start time to the poll, and the next poll finds what it needs |
| GapFree.HealthyPollReads | collector/collector_agent/providers/binance_copy.py:49-174 | every healthy poll of the source is idle or one slice of it that contains the checkpoint |
| GapFree.FirstVisitGapless | collector/collector_agent/scheduler.py:159-161 | the first accepted non-empty window is held whole, with the checkpoint at its end |
| GapFree.RoundsStayGapless | collector/collector_agent/scheduler.py:70-232 | over any rounds of the epoch with failed, gap and skipped visits anywhere, from the first non-empty window on the ledger holds every source record up to the checkpoint, which only moves on, and a ledger of nothing but source records stays one |
| GapFree.PollAgainOverRounds | docs/data-sources.md:35 | over such rounds from an empty ledger, polling known records again posts nothing and gives the estimates the ledger stood for, whatever marks lay on them |
| Reachable.EveryReachableState | collector/collector_agent/scheduler.py:70-232 | after any rounds every subscription's table is the replay of its ledger under at most a stale and an unknown mark, its rows pass the server's checks up to a zero entry price, and every pending trade post is acceptable |
| Reachable.FailedVisitKeepsLedger | collector/collector_agent/scheduler.py:136-195 | a failed or gap visit keeps ledger, checkpoint, start, account and outbox and marks the rows |
| Reachable.AcceptedVisitRestores | collector/collector_agent/scheduler.py:159-161 | the next accepted fetch restores the exact view |
| Reachable.TradeFetchEnqueuesAll | collector/collector_agent/trade_store.py:479-491 | in reachable states `INSERT OR IGNORE` ignores nothing: all posts of a fetch end up in the outbox |
| TradeStructurer.ActionFitsExactly | backend/app/services/trade_structurer.py:115-127 | the inferred action fits the operation if and only if it is not an ADD on a flat bucket or a REDUCE that empties one |
| TradeStructurer.RefusedHistory | backend/app/services/trade_structurer.py:115-127 | a three-record history in which the server refuses both |
| TradeStructurer.PayloadExactly | backend/app/services/trade_structurer.py:66-144 | the queue refuses a payload exactly for an action that does not fit, a negative amount, an empty batch or two changes of one bucket |
| PostAcceptance.PostsForOk | backend/app/services/trade_structurer.py:115-144 | every post built from a sound ledger passes the action table, the batch-metadata rule, the unique change keys and the date bound |
| PostAcceptance.OkPostIsAdmitted | backend/app/routers/collector.py:72-89 | such a post is admitted by the upload endpoint |
| Snapshots.BuildSnapshot | collector/collector_agent/db.py:163-198 | the account, the rows in key order and the newest 2000 operations of the replay |
| Snapshots.SnapshotTells | collector/collector_agent/db.py:163-198 | the account, every row once in key order, and per operation line the fields of the newest 2000 events of the replay |
| Snapshots.RowsAreValid | backend/app/routers/collector.py:216-220 | the rows listed are the table itself, each key once, all coherent and none dated before the start |
| Snapshots.LinesAreValid | backend/app/routers/collector.py:198-227 | the operations sent are valid, uniquely keyed, at most 2000 and none before the start |
| Snapshots.SnapshotAccepted | backend/app/routers/collector.py:122-160 | in every reachable state the server takes the snapshot if and only if it has at most 1000 rows and no zero entry price |
| Snapshots.AnswerExactly | backend/app/routers/collector.py:92-372 | the answer to any snapshot whoever sent it: malformed exactly when a size, sign, state, computed value or key is wrong, else unknown, too early or accepted |
| Pricing.RowPricedExactly | backend/app/routers/collector.py:97 | for any history of fills, complete or not and under any marks: a row is priced exactly when a mark erased its price, the replay is not active there, or something was paid since the bucket opened |
| Pricing.FreeFillRefused | collector/collector_agent/providers/binance_copy.py:291 | any first poll showing one increase at price zero is healthy, is accepted by the store, and leads to a snapshot the server refuses |
| Snapshots.Sync | backend/app/routers/collector.py:338-476 | after an accepted sync the server's table is the collector's, row for row, and so are the account and the operations |
| EndToEnd.UploadIsTransmission | collector/collector_agent/scheduler.py:221-232 | the upload of a round against the server is one transmission of the protocol, or nothing |
| EndToEnd.SystemRoundIsRound | collector/collector_agent/scheduler.py:70-232 | and the collector's half is one round of its scheduler with the reply that came through |
| EndToEnd.StoredAtMostOnce | backend/app/routers/collector.py:290-335 | over any rounds at all each identity is stored at most once |
| EndToEnd.NoTradePostDies | collector/collector_agent/scheduler.py:70-232 | over any rounds and any network, with the server configured like the collector, no trade post ever becomes a dead letter |
| EndToEnd.BootSane | collector/collector_agent/db.py:19-50 | an empty start is a state from which this holds |
| Arrival.DeliveryMovesLine | collector/collector_agent/scheduler.py:221-232 | a delivered upload settles the posts of its page, on the server or as dead letters, and moves the others up by a page |
| Arrival.PostsSurviveRounds | collector/collector_agent/scheduler.py:70-232 | over any rounds that keep the start time, a pending post stays pending, a page further ahead for every delivery, until the server has it or has refused it |
| Arrival.PostsMoveUp | collector/collector_agent/scheduler.py:221-232 | and a page further ahead in every round with the network up that comes after the present wait and 256 s after every failed request, whatever the scheduler does |
| Arrival.TradePostArrives | collector/collector_agent/scheduler.py:70-232 | over such rounds with the server configured like the collector, a pending trade post is always on the server or in line, and with p posts before it it is on the server after more than p / 100 rounds in which the network is up and every failed request lies 256 s back |
| BatchRelease.FetchedPostsAreBatch | collector/collector_agent/trade_store.py:459-491 | the posts of a fetch form one batch with its true size |
| BatchRelease.FreshBatchIsTracked | collector/collector_agent/db.py:128-134 | enqueued, each of them waits, and only they claim the batch |
| BatchRelease.DeliveredBatchIsWhole | backend/app/routers/collector.py:296-335 | over every interleaving and loss, once none of them waits, the server's posts under the batch id are exactly the batch |
| BatchRelease.WholeBatchIsReady | backend/app/services/notifications.py:421-471 | then, all analysed, every member passes the barrier, and there is something to tell exactly when the account has a profile and a position changed |
| ReleaseRounds.FetchedBatch | collector/collector_agent/trade_store.py:459-491 | the posts of a fetch are none, or a batch of the target's account whose id is the digest of its own records |
| ReleaseRounds.FetchOpensBatch | collector/collector_agent/scheduler.py:159-161 | an accepted fetch opens a batch that no post pending or stored claims, and all of it is in line |
| ReleaseRounds.RoundsKeepGuard | collector/collector_agent/scheduler.py:70-232 | over any fair rounds of the epoch no later post reuses its identities or its id, and none of it is refused |
| ReleaseRounds.BatchArrivesWhole | collector/collector_agent/scheduler.py:70-232 | after enough rounds with the network up, 256 s clear of every failed request, the server's posts under the batch id are exactly the batch |
| ReleaseRounds.BootIsGuarded | collector/collector_agent/db.py:19-50 | the first epoch begins in a state from which this holds |
| Notifications.Notifier.DispatchNotifications | backend/app/services/notifications.py:543-648 | the dispatch loop equals its specification and counts the accepted publishes; whom it notifies is `DispatchReaches` and `DispatchOnlyInvites` |
| DispatchTheorems.SubjectExactly | backend/app/services/notifications.py:372-471 | a post speaks for itself unless it is a batched trade post; then the lowest post of the batch speaks for all of it, exactly when all announced posts are there and analysed and tell the same changes, and the account has a profile |
| DispatchTheorems.DispatchOnlyInvites | backend/app/services/notifications.py:51-64 | every publish a dispatch adds is under an enabled, addressed rule of the anchor's subscription or of none that takes one of the signals spoken for: actionable, of sufficient rank, with a market and a stance the rule allows |
| DispatchTheorems.DispatchReaches | backend/app/services/notifications.py:570-647 | conversely every such rule without an event, or with a ripe one, gets exactly one publish with its recorded outcome, and no other event changes |
| DispatchTheorems.DispatchHeldBack | backend/app/services/notifications.py:556-568 | while the batch is not whole a dispatch changes nothing |
| Notifications.Notifier.Publishing | backend/app/services/notifications.py:588-647 | one attempt: the event is created or reused, counted, and becomes sent or failed with its next attempt |
| Notifications.Notifier.RetryFailedNotifications | backend/app/services/notifications.py:651-699 | the retry loop equals its specification, group by group; whom it reaches is `RetryReaches` |
| DispatchTheorems.RetryReaches | backend/app/services/notifications.py:651-699 | in every safe state a retry call attempts each selected event whose post can be spoken for and whose rule is there and invites it exactly once, with the outcome recorded; gives up every other selected event without a publish; and leaves events of other posts alone |
| DispatchTheorems.SelectedOldest | backend/app/services/notifications.py:659-670 | a ripe event is left out only if the limit is reached by events that come before it in (due time, id) order |
| Notifications.Notifier.SelectDue | backend/app/services/notifications.py:659-670 | the due events, oldest first, up to the limit |
| NotificationTheorems.BackoffBounds | backend/app/services/notifications.py:94-124 | a rescheduled attempt is 60 to 86400 s later, honours a Retry-After (section 10.2.3 of RFC 9110), and the eighth failure is final |
| NotificationTheorems.BackoffDoubles | backend/app/services/notifications.py:116-121 | without a Retry-After the delay starts at 60 s and doubles up to an hour |
| DispatchTheorems.RescheduledExactly | backend/app/services/notifications.py:111-124 | the delay after the n-th failure is 60, 120, ..., 1920, 3600 s, or what the push service asked for up to a day if that is longer; after the eighth there is none |
| NotificationTheorems.NarrowerRuleNotifiesLess | backend/app/services/notifications.py:51-64 | what a narrower rule notifies, a wider one does |
| NotificationTheorems.EveryRunIsSafe | backend/app/services/notifications.py:543-699 | over every order of arrivals, analyses, dispatches, retries and reconfigurations: events mirror the publish log, attempts stay within eight, and the barrier holds |
| NotificationTheorems.BarrierHolds | backend/app/services/notifications.py:421-471 | nothing of a batch is published before all its posts have signals, and it is filed under the lowest post |
| NotificationTheorems.BatchHasOneAnchor | backend/app/services/notifications.py:556-568 | all publishes of a batch speak for the same posts under the same anchor |
| NotificationTheorems.AtMostOneSuccess | backend/app/services/notifications.py:588-647 | each (batch, rule) and each (signal, rule) is published successfully at most once |
| NotificationTheorems.EveryRuleIsConsidered | backend/app/services/notifications.py:570-647 | a dispatch attempts every applicable, attemptable rule exactly once with the right outcome, and leaves all other events alone |
| NotificationTheorems.AnyMemberSpeaksForAll | backend/app/services/notifications.py:556-568 | dispatching any member of a complete batch sends the same notification |
| NotificationTheorems.LastAnalysisReleases | backend/app/services/notifications.py:543-648 | over any run, analysing the last member of a batch attempts every applicable rule under the lowest post, for the first time |
| RetryTheorems.RetryClearsSelected | backend/app/services/notifications.py:651-699 | after a retry call none of its selected events is due at the same instant and none has become due |
| RetryTheorems.RetryCounts | backend/app/services/notifications.py:651-699 | the number of due events falls by at least the number selected |
| RetryTheorems.RetryDrains | backend/app/services/notifications.py:651-699 | repeated calls drain all due events |
| RetryTheorems.SentIsAbsorbing | backend/app/services/notifications.py:614-619 | over any run a sent event never changes again |
| JsonScanner.ScanFirstBalanced | backend/app/services/structurer.py:129-153 | the loop returns the specification's first balanced object |
| JsonScanner.ScannerFindsPrintedObject | backend/app/services/structurer.py:129-153 | any object printed with any spelling section 7 of RFC 8259 allows of each character, compact or with any padding and separators per nesting level, after any prefix without an opening brace and before any suffix, is found exactly |
| JsonScanner.FoundObjectIsBalanced | backend/app/services/structurer.py:129-153 | for any text, what is found starts at the first brace and scans to itself |
| JsonScanner.ScanExactly | backend/app/services/structurer.py:129-153 | for any text with a brace, against a definition without a state machine: what is found is the shortest piece from the first brace in which the braces outside strings cancel out, and nothing is found exactly when no piece does |
| SignalFeed.UniqueSignals | frontend/src/lib/signalFeed.ts:5-12 | flattening any groups and filtering through a set of seen ids keeps the first of each id |
| SignalFeed.FirstOfEach | frontend/src/lib/signalFeed.ts:5-12 | exactly the items at the first place of their id are kept, unchanged and in order |
| SignalFeed.CutDropsNothing | frontend/src/lib/signalFeed.ts:22 | the cut to a total drops nothing of what was drawn from a list of that total |
| SignalFeed.CutDropsNothingExactly | frontend/src/lib/signalFeed.ts:22-36 | in general a cut loses an item if and only if there are more distinct items than its total |
| SignalFeed.TimelyMerge | frontend/src/app/page.tsx:104-144 | merging an answer whose total is not smaller than the held one keeps everything held and adds everything it shows |
| SignalFeed.OvertakenLoad | frontend/src/app/page.tsx:127-144 | an input without that: a load overtaken by a refresh cuts off a live item, and there is no more to load |
| SignalFeed.MergeIsUnion | frontend/src/lib/signalFeed.ts:18-38 | a merge of two draws from a live list is their union without repetition |
| SignalFeed.MergeKeepsFront | frontend/src/lib/signalFeed.ts:18-38 | the page put in front keeps every item at its place through the merge and the cut |
| SignalFeed.ScrollLoadsEverything | frontend/src/app/page.tsx:91-154 | over any interleaving of growth at the head, refreshes and loads, with answers under way, late or lost, none merged with a total smaller than the held one: no duplicate, nothing stale, and when the scroll stops every item of the first load is held |
| SignalFeed.InOrderIsAllowed | frontend/src/app/page.tsx:91-154 | answers merged in the order they were given never have a smaller total |
| SignalFeed.ScrollInOrder | frontend/src/app/page.tsx:91-154 | so in every such session the same holds |
| SignalFeed.AtOnce | frontend/src/lib/signalFeed.ts:14-42 | a load or a refresh with nothing in between is its request, answer and merge |
| SignalFeed.LoadGoesThrough | frontend/src/app/page.tsx:127-154 | a load asked for amid refreshes under way goes through, whenever there is more |
| SignalFeed.RefreshedListLoads | frontend/src/lib/signalFeed.ts:18-42 | after merging a refresh answered on growth of at most one page, or with the offset not past the first page, every item of the list it was answered on is held when the scroll stops |
| SignalFeed.HeldAtTheEndExactly | frontend/src/lib/signalFeed.ts:14-42 | a refresh and scrolling to the end leave an item held if and only if it is in the newest page, was held before, or was ahead of the offset |
| SignalFeed.MissedItem | frontend/src/lib/signalFeed.ts:33-38 | with pages of 20: after two pages loaded, any growth by 21 and a refresh, the oldest new item is never held |
| SignalFeed.ScrollStops | frontend/src/lib/signalFeed.ts:40-42 | and it stops after enough loads |
| ProfileRepair.ProfileTables.RepairKolPlatformIdentity | backend/app/db/migrations.py:61-159 | the three loops over both tables and their dictionaries equal the specification `Repaired` |
| ProfileRepair.ProfileTables.CompletePlatforms | backend/app/db/migrations.py:104-114 | every missing platform becomes that of the profile's first subscription, or the default |
| ProfileRepair.PlatformExactly | backend/app/db/migrations.py:104-114 | after a whole run a profile that had no platform has that of its subscription with the lowest id, or the default if it had none |
| ProfileRepair.ProfileTables.IndexProfiles | backend/app/db/migrations.py:116-119 | the dictionary resolves every identity to the profile with the highest id that bears it |
| ProfileRepair.ProfileTables.RepairSubscription | backend/app/db/migrations.py:120-159 | one turn of the last loop keeps the dictionary in step with the table |
| ProfileRepair.EverySubscriptionRepaired | backend/app/db/migrations.py:120-159 | afterwards every linked subscription is on a profile of its own platform and handle, no profile is deleted or renamed, unlinked subscriptions are untouched |
| ProfileRepair.ProfileExactly | backend/app/db/migrations.py:116-159 | it is on the one with the highest id of those with its platform and handle, and on an added one only where no old one has them |
| ProfileRepair.NewProfilesInherit | backend/app/db/migrations.py:123-150 | every added profile bears a linked subscription's identity and has the other columns of the profile that subscription was on |
| ProfileRepair.SecondRunIsNoOp | backend/app/db/migrations.py:86-159 | a second run changes nothing |

## Left out

- ReleaseRounds.BatchArrivesWhole: begins in a state whose stored posts of the account are of records in the ledger; the first epoch begins so (`BootIsGuarded`), a later one only if no record posted before a restart comes up as new after it.
- The error state of the signal page, which suspends loading until a refresh succeeds, and changed filters, which begin a new session.
- Rounding of decimals to 28 digits: the model computes over reals. Both ends recompute from the same stored operands with the same operations, so acceptance does not rest on it.
- Text formats: SHA-256, JSON text of payloads and checkpoints, ISO dates, time zones and naive timestamps, decimal formatting.
- Length, pattern and magnitude limits on fields of the server's request models, the raw source payload carried with a record, the message text, and the limit of 1000 entries on a post's change list.
- The `updated_at` and `next_check_at` columns; the realised PnL copied into an operation line.
- Authentication, agent ids, heartbeats and logging.
- Concurrent workers: row locks, the IntegrityError branch of a concurrent insert of a notification event, and the transient `pending` state of an event within one dispatch.
- Providers other than the Binance one: their posts enter as an arbitrary outcome of a visit.
- HTTP, Playwright and subprocess mechanics; decoding of responses is the choice among the outcomes of `Response`, and mark prices and account balance of a poll are parameters.
- Two revisions of one record inside one page of the source: the source of `NoSilentGap` lists each record once.
- Whether a record belongs to a market a rule allows, and how confidence ranks: a signal carries its markets and its rank.
- `_extract_model_payload` around the scanner (code fences and type checks), LLM prompting and the heuristic structurer.
- The checks at the head of the profile migration that the expected columns exist, and all other migrations.
- Message wording, number formatting, React components, admin forms and the legacy crawler on the server: no property that spans operations.
