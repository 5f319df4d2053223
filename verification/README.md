# ports-box in Dafny

ports-box forwards TCP and UDP ports for several users and accounts for their traffic. This project
models the parts where that is hard to get right and proves what they promise:

- the **ledger**: balances reconciled against provider packages (`Apportion`, `Ledger`, `LedgerLaws`,
  `LedgerPackages`, `LedgerGuarantees`, `LedgerRuns`, `LedgerWho`, and `LedgerBook`, the class with the
  loops);
- the **quota**: hourly billing, first as a sequential object (`Quota`, `QuotaRuns`, `QuotaBilling`),
  then as an interleaving of single atomic operations (`QuotaRace`, `QuotaReads`); `Spending` and
  `SpendingWindow` put quotas and ledger together;
- the **UDP relay**: segmentation of coalesced packets and the opening/open slot machine
  (`Segments`, `Relay`, `RelayAudit`);
- the **TCP copy loops** and the pipe pools they share (`TcpCopy`);
- the **target pool** and failover (`Pool`, `Rearm`);
- **reconfiguration**: validation (`Config`), the all-or-nothing reload with socket handover
  (`Runtime`), and the file against the panel across saves, reloads and restarts (`ConfigStore`);
- **persistence**: the flush cache, the ledger tables and the engine's commits (`StateDb`, `Engine`).

`Sums`, `Keys` and `Options` hold shared vocabulary. Code that updates state in place is a class whose
methods are proved equal to a function of the old state; the laws are then proved about that function.
Protocols between tasks are state machines over their atomic steps, and the theorems about them hold in
every interleaving.

Outside influences are parameters: `canBind` and `loads` for sockets and the saved usage, `answers` for
connects, `gso` and `accepts` for sends, `commits` and `saves` for database transactions, `writes` and
`applies` for the panel's store and the runtime, `Rules` for parsing and checking a configuration text,
and the hour and the time of day wherever the program reads a clock.

Amounts are unbounded. The ledger therefore speaks about amounts and sums below 2^63, where the
source's `signed` never saturates, and the quota about counters that do not wrap; the one 64-bit value
with a meaning, the "unlimited" marker, is modelled as itself. Package ids are unique in one fetch and
member names unique in one call, as the provider and the configuration checks guarantee
(`src/config.rs:472-474`, `src/config.rs:512-524`); each lemma that needs this says so.

## What did not hold as expected

- A sweep in single-user mode that lowers a balance writes no ledger line, so there the lines do not
  explain the balance (`src/ledger.rs:348-363`). `LedgerRuns.OnlyDownwardSweepsAreUnlogged` proves that
  this is the only such case.
- A forfeit larger than the positive balances drives somebody negative; `LedgerGuarantees.ForfeitSpares`
  gives the exact condition for one, `LedgerGuarantees.SyncSpares` for all the expiries of a sync.
- A refused transfer that reaches the balance check has already joined the members
  (`src/ledger.rs:443-454`); the engine works on a copy and discards it.
  `LedgerGuarantees.RefusedTransferJoins` says when the book changes.
- Reloading can bind an address the runtime already holds: a new rule removes the spare sockets of its
  address from both maps even if it uses only one (`src/runtime.rs:182`, `src/runtime.rs:191`).
  `Runtime.RebindsExactly` proves when, `Runtime.SplitRuleRebinds` is an instance.
- A user can spend more than its positive balance and one chunk. The engine reads what the members have
  used, waits for the book to be saved and applies the limits afterwards (`src/accounting.rs:305-317`), so
  what a user carries in between is metered against the old limit; `SpendingWindow.TransferWindowExample`
  is a transfer in which it is lost. A change of the metering rule does the same to the open hour.
  `Spending.NobodyOutspends` bounds the excess and says exactly when there is one.
- A reload between the fetch and the second reading of the members can empty the list, and the first sync
  then migrates with everything unallocated (`src/accounting.rs:287`, `src/accounting.rs:305`);
  `Engine.FirstSyncSharesOut` is the exact condition.
- A failing connect tries the primary once more at the end when a round is left for it, so the attempts
  are the healthy targets in order and then possibly target 0 (`src/tcp.rs:85-114`).
- A reader of the active index can see the one from before a flip in progress; `Rearm.ReadersLagOneFlip`
  bounds the lag to that flip and `Rearm.StaleReadExample` is a run with a stale read.
- Revisions start again at 0 with every process, so they increase within a process only, and a page
  loaded before a restart can be accepted after it (`src/main.rs:186-190`). `ConfigStore.PageIsTaken` and
  `ConfigStore.RestartForgetsRevisions` say exactly when, and what the page then edits.
- A reloaded file that moves the panel's store is accepted, but the process keeps saving to the old path
  (`src/main.rs:144`, `src/main.rs:279-284`). A restart then loses those edits, or brings back a store an
  earlier process left at the new path. `ConfigStore.RestartReproducesExactly` is the exact condition, and
  `ConfigStore.RestartOnAnyText` the one for a text that was refused.
- Under the larger-direction rule a clock that goes back into a closed hour can bill it twice; under the
  other two rules no clock does any harm. `QuotaBilling.AnyClockBills` proves that a quota never bills
  less than hour by hour, and exactly that if and only if the separate visits of each hour lean the same way.
- A metering change reaches back into the open hour, so a restart before it shows exactly when it closes
  that hour and the two rules bill its bytes differently (`QuotaBilling.MeteringShowsRestart`, `QuotaBilling.MeteringShowsRestartForGood`).
- A snapshot taken under traffic can hold bytes in its bucket that are missing from its lifetime total, as
  it reads the total first (`src/quota.rs:288-298`); the excess is at most what was recorded meanwhile. From
  such a row the reported split can fall short of `used`; `QuotaRuns.SplitIsExact` says when.

## Model

| member | source | states |
|---|---|---|
| `Apportion.ComputeSplit` | src/ledger.rs:101-123 | the loop that fills and then tops up the shares computes the apportionment the lemmas below describe |
| `Apportion.SplitConserves` | src/ledger.rs:101-123 | the shares sum to the amount exactly, or to 0 when every weight is 0 |
| `Apportion.SplitRounds` | src/ledger.rs:109-121 | each share is its exact quota rounded down, or up only when it is not whole |
| `Apportion.ShareAt` | src/ledger.rs:113-121 | a share is rounded up exactly when its place in the order by remainder is among the units left over |
| `Apportion.LeftOver` | src/ledger.rs:113-121 | the units left over never outnumber the positive remainders, so the loop never hands one to a whole quota |
| `Apportion.OrderPlaces` | src/ledger.rs:114 | sorting the remainders lists every index exactly once |
| `Apportion.SortSorts` | src/ledger.rs:114 | the order is by decreasing remainder, ties by index |
| `Apportion.ZeroWeight` | src/ledger.rs:101-123 | a weight of 0 gets nothing |
| `Apportion.SplitWithinWeight` | src/ledger.rs:101-123 | no share exceeds its weight when the amount does not exceed the total |
| `Apportion.SplitFollowsWeights` | src/ledger.rs:101-123 | a larger weight never gets less; of equal weights the earlier gets at most one more |
| `LedgerLaws.PostTo` | src/ledger.rs:276-302 | a batch of postings changes one user's balance by the sum of that user's postings |
| `LedgerLaws.PostSum` | src/ledger.rs:276-302 | a batch of postings changes the sum of balances by the sum of its amounts |
| `LedgerLaws.JoinKeeps` | src/ledger.rs:151-158 | joining changes no balance or baseline that was there and nothing else in the book |
| `LedgerLaws.JoinCovers` | src/ledger.rs:151-158 | joining keeps the balance sum and leaves every member with a balance and a baseline |
| `LedgerLaws.CreditInFull` | src/ledger.rs:268-303 | the credit lines of a package sum to its total, to one owner or split |
| `LedgerLaws.CreditsInFull` | src/ledger.rs:268-303 | the credit lines of a sync sum to the totals of the packages it credits |
| `LedgerLaws.ChargedTotal` | src/ledger.rs:307-318 | the charges of a sync sum to the whole consumption if anything was metered and to 0 otherwise |
| `LedgerLaws.ForfeitTakes` | src/ledger.rs:325-347 | an expiry takes its whole leftover while anybody holds a positive balance, else nothing |
| `LedgerLaws.ForfeitAllTakes` | src/ledger.rs:325-347 | the expiry lines of a sync sum to the forfeits actually taken, one after the other |
| `LedgerLaws.SettleMoves` | src/ledger.rs:196-347 | a sync moves the balance sum by credits, charges and forfeits and by nothing else |
| `LedgerLaws.UnallocatedMoves` | src/ledger.rs:196-365 | outside the sweep, unallocated traffic changes by uncredited purchases, less unpaid expiries, less uncharged consumption |
| `LedgerLaws.MeteredDropStaysAllocated` | src/ledger.rs:305-318 | a drop that was metered never moves unallocated traffic |
| `LedgerLaws.SweepSettlesEverything` | src/ledger.rs:348-363 | a single-user sync ends with nothing unallocated, counting balances of former users |
| `LedgerPackages.FindListed` | src/ledger.rs:217-220 | a lookup among fetched packages finds the one with that id |
| `LedgerPackages.AbsorbAt` | src/ledger.rs:244-266 | a fetched package replaces its record and keeps its credit; other records stay |
| `LedgerPackages.RefreshedAt` | src/ledger.rs:223-266 | after a sync a record is effective exactly when the fetch says so; unfetched ones are not |
| `LedgerPackages.SettledRemaining` | src/ledger.rs:203-266 | `remaining` is the sum of `available` over effective records after a sync |
| `LedgerPackages.MigratedRemaining` | src/ledger.rs:183-193 | and after the migration |
| `LedgerPackages.ConsumptionIsDrops` | src/ledger.rs:203-266 | previous + added - gone - remaining telescopes to the sum of per-package drops |
| `LedgerGuarantees.ForfeitTo` | src/ledger.rs:325-347 | a holder of a positive balance pays its share of an expiry, everybody else nothing |
| `LedgerGuarantees.ForfeitSpares` | src/ledger.rs:325-347 | an expiry drives nobody negative if and only if it does not exceed the positive balances or there are none |
| `LedgerGuarantees.ForfeitDrains` | src/ledger.rs:325-347 | a covered expiry lowers the positive balances by exactly its leftover |
| `LedgerGuarantees.ForfeitsSpare` | src/ledger.rs:325-347 | expiries taken in turn drive nobody negative if and only if the positive balances cover them together or one of them takes exactly the last positive byte |
| `LedgerGuarantees.SyncSpares` | src/ledger.rs:325-347 | the same for the expiries of any sync and the balances it has credited and charged |
| `LedgerGuarantees.OpeningTotal` | src/ledger.rs:161-169 | the opening shares sum to what the provider has |
| `LedgerGuarantees.MigrationHandsOutEverything` | src/ledger.rs:134-194 | after migration the spendable limits (limit minus used) sum exactly to `remaining` |
| `LedgerGuarantees.TransferMoves` | src/ledger.rs:420-474 | a transfer keeps the balance sum, moves exactly the amount, and leaves the giver's limit at or above its use |
| `LedgerGuarantees.RefusedTransferJoins` | src/ledger.rs:443-454 | a refused transfer changes the book if and only if it reaches the balance check and a member was not in the book; it then joins and nothing else |
| `LedgerGuarantees.AllocationStaysCovered` | src/ledger.rs:367-418 | an allocation lowers unallocated traffic by exactly its amount and never below 0 |
| `LedgerGuarantees.SettleIsUpToDate` | src/ledger.rs:196-365 | whatever the book, after a sync it says everything the fetch says |
| `LedgerGuarantees.UpToDateStays` | src/ledger.rs:196-365 | syncing a book that already does writes nothing and changes no balance, baseline or record |
| `LedgerGuarantees.ReconcileIsIdempotent` | src/ledger.rs:196-365 | repeating any sync emits no line and changes only its time and the two per-sync figures |
| `LedgerRuns.PerformTo` | src/ledger.rs:160-474 | every operation changes every balance by its ledger lines, its charges and its unlogged sweep |
| `LedgerRuns.RunIsSound` | src/ledger.rs:160-474 | over every history, balances are the sum of lines, charges and unlogged sweeps, and `remaining` the sum of effective records |
| `LedgerRuns.SharedModeLogsEverything` | src/ledger.rs:268-363 | over every history outside single-user mode, every balance is the sum of the user's lines and charges |
| `LedgerRuns.OnlyDownwardSweepsAreUnlogged` | src/ledger.rs:348-363 | an operation keeps the lines sufficient if and only if it is not a sweep that lowers a balance |
| `LedgerRuns.DownwardSweepExample` | src/ledger.rs:348-363 | a history from the empty book, a purchase and the report that it is used up, whose second sync lowers the balance without a line |
| `LedgerRuns.ConsumedIsClampedDrops` | src/ledger.rs:305-306 | in every history the next sync's `consumed` is the sum of per-package drops, clamped at 0 |
| `LedgerRuns.CreditStep` | src/ledger.rs:268-303 | an operation credits a package only from uncredited to credited, with lines summing to its total, and never changes a credit |
| `LedgerRuns.CreditStays` | src/ledger.rs:268-303 | a credit, once given, is the same for the rest of every history |
| `LedgerRuns.CreditedAtMostOnce` | src/ledger.rs:268-303 | the credit lines of a package never come from two operations |
| `LedgerRuns.JournalCredits` | src/ledger.rs:268-303 | so the whole journal's credit lines for a package are those of one operation |
| `LedgerRuns.JournalCreditsInFull` | src/ledger.rs:268-303 | and over every history they sum to the package's total as reported to that operation |
| `LedgerWho.UsersPay` | src/ledger.rs:305-318 | a member pays the part of the consumption that its use since the last settlement is of the whole use, rounded down or up; nothing if it used nothing, nothing was used or there is nothing to pay |
| `LedgerWho.PayingFollowsUse` | src/ledger.rs:307-318 | who used more pays no less; of two who used the same the earlier pays at most 1 more |
| `LedgerWho.OthersPayNothing` | src/ledger.rs:314-318 | nobody outside the members pays |
| `LedgerWho.SyncBalance` | src/ledger.rs:196-365 | after a sync every balance has moved by the user's own lines less what it paid, and by an unlogged sweep in single-user mode only |
| `LedgerWho.MeteredIsUse` | src/ledger.rs:307-323 | the metered figure is what the members used since the last settlement |
| `LedgerWho.OwnersAreCredited` | src/ledger.rs:268-303 | a package credited for the first time goes in one line to the member it is listed for, or to all members in parts that differ by at most 1 if shared or in single-user mode, or to nobody, and its record says so; no other package is credited |
| `LedgerWho.ConfiguredUserIsCredited` | src/accounting.rs:95-113 | the user whose configuration lists a package is the one credited with it, for its total |
| `LedgerWho.ForfeitsAre` | src/ledger.rs:223-243 | exactly the credited packages that are gone without being used up are forfeited, each with all it still had |
| `LedgerWho.SyncLinesSay` | src/ledger.rs:268-363 | every line of a sync bears its time and kind, and an expiry names a credited package that is gone |
| `LedgerWho.OpeningFollowsQuotas` | src/ledger.rs:160-182 | the migration gives each member the part that its offline remainder is of all of them, or an equal part if nobody has any, rounded down or up |
| `LedgerWho.AllocationGoesTo` | src/ledger.rs:391-416 | an allocation to one user is all that user's, one to all is shared evenly among the members, and nobody else gets anything |
| `LedgerWho.AllocationSucceeds` | src/ledger.rs:374-402 | the exact condition for an allocation to succeed |
| `LedgerWho.TransferSucceeds` | src/ledger.rs:428-453 | a transfer succeeds if and only if both are members and the giver's balance less its use covers it |
| `LedgerBook.LiveBook.UnallocatedNow` | src/ledger.rs:147-149 | summing the balances in place gives `remaining` less their total |
| `LedgerBook.LiveBook.JoinMembers` | src/ledger.rs:151-158 | the joining loop leaves the book the laws speak about |
| `LedgerBook.LiveBook.MigrateFrom` | src/ledger.rs:160-194 | the migration loops leave that book and write those lines |
| `LedgerBook.LiveBook.ScanGone` | src/ledger.rs:221-243 | the scan of vanished packages totals their leftovers, lists the forfeits and marks the missing |
| `LedgerBook.LiveBook.AbsorbFetched` | src/ledger.rs:244-266 | the loop over fetched packages updates the records and totals the purchases |
| `LedgerBook.LiveBook.CreditListed` | src/ledger.rs:268-303 | the crediting loop posts exactly the credit lines and marks exactly those records |
| `LedgerBook.LiveBook.ChargeUsage` | src/ledger.rs:307-318 | the charging loop posts exactly the charges and returns the metered total |
| `LedgerBook.LiveBook.ForfeitEach` | src/ledger.rs:325-347 | the forfeiting loops post exactly the expiry lines, each from the balances the previous left |
| `LedgerBook.LiveBook.SettleFrom` | src/ledger.rs:196-347 | the phases of a sync, in order, leave the book and lines of `Settle` |
| `LedgerBook.LiveBook.ReconcileWith` | src/ledger.rs:196-365 | a sync in place is the function `Reconcile` of the old book |
| `LedgerBook.LiveBook.AllocateTo` | src/ledger.rs:367-418 | an allocation in place is `Allocate`; a refused one changes nothing |
| `LedgerBook.LiveBook.TransferBetween` | src/ledger.rs:420-474 | a transfer in place is `Transfer`; a refused one at most joins the members |
| `Quota.UserQuota.constructor` | src/quota.rs:128-163 | restoring settles a saved bucket of another hour and starts exhausted exactly at or over the limit |
| `Quota.UserQuota.TryConsumeAt` | src/quota.rs:173-192 | a consume rolls over, records and stops as the function `Consume` does, and answers whether traffic may go on |
| `Quota.UserQuota.RollOverAt` | src/quota.rs:194-218 | the rollover moves the bucket into `settled` once |
| `Quota.UserQuota.ChangeLimit` | src/quota.rs:236-246 | a new limit re-evaluates flag and broadcast |
| `Quota.UserQuota.ChangeMetering` | src/quota.rs:228-234 | a new rule re-evaluates them too when there is a limit |
| `Quota.SplitFits` | src/api.rs:47-56 | the proportional part of the billed total exceeds neither the total nor its direction, nor does the rest |
| `QuotaRuns.UpgradeIsCovered` | src/state.rs:277-283 | a row of the old schema keeps its totals and bills its larger direction once, under any rule |
| `QuotaRuns.RunIsExact` | src/quota.rs:173-246 | over every history, restarts and metering changes included, billed traffic is covered by carried traffic and the flag and broadcast equal "limit set and used at or over it" |
| `QuotaRuns.TotalsAreTraffic` | src/quota.rs:173-183 | over every history the lifetime totals are what was let through in each direction |
| `QuotaRuns.RestoreIsExact` | src/quota.rs:128-163 | a restored quota starts out exact and covered |
| `QuotaRuns.SplitAddsUp` | src/api.rs:47-56 | over every history the reported parts sum to `used` and neither exceeds its direction |
| `QuotaRuns.SplitIsExact` | src/api.rs:47-56 | from any row the parts stay within their directions and sum to `used` if and only if no more is billed than was carried; the upload's part is then proportional, rounded down |
| `QuotaRuns.Overshoot` | src/quota.rs:173-192 | a consume of n that starts un-exhausted ends below limit + n |
| `QuotaRuns.SpendStays` | src/quota.rs:173-218 | and so does every run of consumes and rollovers in chunks of n |
| `QuotaRuns.BalanceBoundsMetering` | src/accounting.rs:229-243 | once the ledger's limit is applied to a user less than a chunk over it, the user stays below its positive balance plus one chunk |
| `Spending.CommitCovers` | src/accounting.rs:286-348 | only a sync and a transfer's giver can have a limit lowered, and not below the use that was read |
| `Spending.NobodyOutspends` | src/accounting.rs:229-348 | over every run of readings, proposals, saves, limits, traffic, rule changes and restarts, a user spends less than its positive balance, a chunk and what was billed between reading and applying; without that last part if and only if it was so when its limit or rule was last applied, and otherwise it is stopped and has used nothing since |
| `Spending.OldLimitStillHolds` | src/accounting.rs:245-263 | at every moment, also before a new limit is applied, the same bound against the limit in force |
| `Spending.CalmRunsStayBounded` | src/accounting.rs:229-348 | if nothing is carried while the engine is at work and the rule stays, the bound is the positive balance and a chunk |
| `SpendingWindow.TransferWindowExample` | src/accounting.rs:321-331 | a run from the empty book in which a giver ends with balance 0 and has spent a chunk |
| `SpendingWindow.MeterExample` | src/quota.rs:228-234 | a user within its bound that a change of rule takes out of it |
| `QuotaBilling.VisitsAccount` | src/quota.rs:173-218 | under one rule and any clock, a quota holds the bill of every visit to an hour: the last in its buckets, the others settled |
| `QuotaBilling.AnyClockBills` | src/quota.rs:173-218 | under one rule and any clock, `used` is at least the sum of the hours billed once, and equal if and only if the visits of each hour are one-sided or the rule adds directions up |
| `QuotaBilling.UsedIsBilledByHour` | src/quota.rs:173-218 | `used` is the sum over hours of that hour's bill, restarts or not, if the clock never goes back; under the sum and download rules whatever the clock does |
| `QuotaBilling.RestartIsRollover` | src/quota.rs:128-163 | restoring a snapshot at an hour equals rolling the live quota to that hour |
| `QuotaBilling.RestartIsInvisible` | src/quota.rs:128-163 | a restart changes neither the traffic let through, nor the bill, nor exhaustion, under the same conditions |
| `QuotaBilling.MeteringShowsRestart` | src/quota.rs:228-234 | before metering changes, a restart leaves the bill alone if and only if the hour is still open or both rules bill its bytes the same |
| `QuotaBilling.MeteringShowsRestartForGood` | src/quota.rs:228-234 | whatever follows, a restart that closes an hour leaves traffic and bill alone if and only if the hour's bytes cost the same under the rule at the restart and the rule when the hour would have closed |
| `QuotaBilling.MeteringChangeShowsRestarts` | src/quota.rs:228-234 | an instance: 14 against 9 |
| `QuotaBilling.BackwardClockOverbills` | src/quota.rs:194-218 | an instance under the larger-direction rule: n bytes each way in one hour cost n, or 2n if the clock left the hour in between |
| `QuotaRace.StepKept` | src/quota.rs:173-298 | every atomic step of consumers, settlers, readers and snapshots keeps the invariant |
| `QuotaRace.NoByteLost` | src/quota.rs:173-218 | in every interleaving each recorded byte is in a bucket, in the settler's hand or in one settled hour |
| `QuotaRace.UsedNeverOverstates` | src/quota.rs:264-278 | a concurrent `used()` is at most the bytes recorded when it finishes |
| `QuotaReads.UsedIsBracketed` | src/quota.rs:264-278 | in every interleaving in which nothing is settled and the rule stays between a reader's first and last load, `used()` is at least what was used at the first and at most what was used at the last |
| `QuotaReads.ReaderAlone` | src/quota.rs:264-278 | on its own it is exactly what the counters say |
| `QuotaReads.RolloverHidesAtMostTheHour` | src/quota.rs:209-217 | whatever comes in between, it misses at most the open hour's bill |
| `QuotaReads.RolloverHidesTheHour` | src/quota.rs:209-217 | a run in which a rollover hides all of it |
| `QuotaReads.HourIsRight` | src/quota.rs:194-217 | in every interleaving a consumer goes on to record only when the bucket's hour is its own, and a snapshot saves the hour its buckets are of |
| `QuotaRace.SnapshotIsComplete` | src/quota.rs:288-298 | a snapshot holds everything recorded before it took the lock, counts nothing twice, and its lifetime totals include it; its billed side exceeds its totals by at most what was recorded meanwhile |
| `QuotaRace.RunTotals` | src/quota.rs:178-183 | in every interleaving the lifetime totals run ahead of the buckets by exactly the bytes between the two additions |
| `QuotaRace.SnapshotCanExceedTotals` | src/quota.rs:288-298 | a run in which a snapshot saves n bytes in the bucket and none in the total |
| `Segments.ChunksSplit` | src/udp.rs:58-77 | cutting a buffer into batches of whole segments first does not change the segments |
| `Segments.ChunksJoin` | src/udp.rs:72 | the segments put together are the data, all full but the last |
| `Segments.DatagramsJoin` | src/udp.rs:58-61 | whatever the stride, the datagrams put together are the data |
| `Segments.SendEach` | src/udp.rs:72-74 | the fallback loop sends the segments in order up to the first that is refused, and succeeds if and only if none is |
| `Segments.SendBatch` | src/udp.rs:63-75 | one batch does the same: whole, or segment by segment |
| `Segments.Send` | src/udp.rs:58-77 | the datagrams are those of the stride, up to the first that neither its batch's segmented send nor its own send takes; it succeeds if and only if there is none |
| `Relay.RunKeeps` | src/udp.rs:244-400 | every event of the shard loop, openers and teardowns keeps the shard's invariant |
| `Relay.OneOpenerPerSlot` | src/udp.rs:259-304 | in every interleaving an opening slot has exactly one live opener, and every opener its slot |
| `Relay.Bounded` | src/udp.rs:259-288 | pending queues hold at most 32 packets and the map never exceeds the shard's limit |
| `Relay.ForwardedInOrder` | src/udp.rs:371-400 | packets forwarded for a peer are arrivals, in order and without duplicates |
| `RelayAudit.EveryPacketHasOnePlace` | src/udp.rs:244-400 | in every interleaving each arrival is in exactly one place: forwarded, in the loop's hand, held by the opener, pending, or lost because of exhaustion, a full queue, a full map, a refusing quota or a failed opener |
| `RelayAudit.ArrivalGoes` | src/udp.rs:259-296 | an arrival for an open session goes to the loop's hand and a taken send forwards exactly it; one for an opening slot with room is pending; one for a new peer with room gets an opener; any other is dropped |
| `RelayAudit.OpenersForward` | src/udp.rs:379-399 | an opener forwards what it holds in order, takes what has come since, and opens the slot when there is nothing |
| `RelayAudit.TeardownSparesOthers` | src/udp.rs:298-303 | a teardown removes its own session only |
| `Relay.ShardsBounded` | src/udp.rs:315-338 | all shards together hold fewer than max_sessions + shards sessions |
| `TcpCopy.RunKeeps` | src/tcp.rs:153-238 | every step of every connection keeps pipes, pools and accounts consistent |
| `TcpCopy.DeliversOwnBytes` | src/tcp.rs:176-238 | delivered bytes are a prefix of those read from the connection's own source, each counted by the quota first |
| `TcpCopy.AllowedBytesGoOut` | src/tcp.rs:217-235 | bytes the quota lets through go on to the sink, and once written the copy reads again |
| `TcpCopy.IdlePipesAreClean` | src/pipe.rs:36-81 | a pooled pipe is empty, in one pool once, in at most 16, and leased by nobody |
| `TcpCopy.PipesGoBack` | src/tcp.rs:159-174 | a copy that ends gives an empty pipe back to its thread's pool while there is room, and closes any other |
| `TcpCopy.LeasedPipesAreExclusive` | src/tcp.rs:153-238 | a leased pipe has one owner, holds exactly its bytes in flight, and `buffered` is their number |
| `Pool.TargetPool.UpdateActive` | src/pool.rs:128-138 | the scan makes the active index the first healthy target, or 0 if none |
| `Pool.TargetPool.MarkDown` | src/pool.rs:70-85 | marking down flips one flag and keeps that |
| `Pool.TargetPool.MarkUp` | src/pool.rs:87-96 | marking up flips one flag and keeps that |
| `Pool.ActiveIsFirst` | src/pool.rs:128-138 | the active index is the head of the list of healthy targets |
| `Pool.TargetPool.FailOver` | src/tcp.rs:108-111 | after a failure the active index moves to the next healthy target unless nothing is left |
| `Pool.TargetPool.ConnectActive` | src/tcp.rs:85-114 | a connect follows the healthy targets in priority order, gives up only after all of them failed and are down, and otherwise stops at the first that answers |
| `Rearm.RunKept` | src/pool.rs:70-138 | every load, swap and store of `mark_down`, `mark_up`, their scan, the timers and readers keeps the invariant |
| `Rearm.ActiveAgreesWithScan` | src/pool.rs:70-138 | in every interleaving, whenever the lock is free the active index is the first healthy target, or 0 if none |
| `Rearm.ReadersLagOneFlip` | src/pool.rs:61-64 | at any moment a reader gets the right index for the flags as they are or as they were before the one flip in progress |
| `Rearm.PickIsRight` | src/pool.rs:61-64 | so is the very target `pick` hands out, and it is the right one whenever the lock is free |
| `Rearm.StaleReadExample` | src/pool.rs:61-64 | a run in which a reader gets a target that is already down |
| `Rearm.DownTargetsComeBack` | src/pool.rs:70-96 | in every interleaving of a cooldown pool every down target has a re-arm on its way |
| `Config.Claim` | src/config.rs:500-505 | an address is claimed exactly when no earlier rule or server of that protocol has it |
| `Config.CheckTarget` | src/dns.rs:61-72 | a target passes exactly when its last colon separates a host from a decimal port of 16 bits |
| `Config.CheckUser` | src/config.rs:475-506 | a user's rules pass exactly when each is usable and none clashes with anything before it |
| `Config.CheckAccounting` | src/config.rs:512-547 | accounting passes exactly when no package is blank or listed twice and the remote section is complete for its mode |
| `Config.Validate` | src/config.rs:440-547 | a configuration passes if and only if names, addresses per protocol and packages are distinct, rules, panel, state and accounting settings usable and there is something to serve |
| `Config.AssignmentsFollowConfig` | src/accounting.rs:95-113 | in an accepted configuration each package is the one user's that lists it, or shared, never both |
| `Config.SpecsAreEnabledRules` | src/runtime.rs:137-157 | the rules that run are exactly the enabled ones, with their user and all their targets |
| `Config.SharesFitTotal` | src/config.rs:552-567 | an explicit quota is the user's own; the others have equal shares that use up the total but for less than a byte each |
| `Runtime.Prepare` | src/runtime.rs:177-200 | each new rule gets the sockets its protocol asks for, spare ones first, and the binds made are a prefix of the planned ones, all of them on success |
| `Runtime.HeldMeansSpare` | src/runtime.rs:166-176 | an address a new rule needs is held exactly when a rule that goes away leaves it spare |
| `Runtime.RebindsExactly` | src/runtime.rs:182-198 | a reload binds an address it holds if and only if an earlier new rule listens on the same address |
| `Runtime.NeverRebinds` | src/runtime.rs:166-201 | so if no two new rules share an address, it never binds one it holds |
| `Runtime.SplitRuleRebinds` | src/runtime.rs:182-198 | splitting a rule for both protocols, UDP first, does bind a held TCP address |
| `Runtime.SocketsHandedOver` | src/runtime.rs:166-198 | a new rule serves the very socket of the rule it replaces unless an earlier new rule of that address was in line |
| `Runtime.ReloadedQuota` | src/runtime.rs:217-266 | a reload keeps a live user's counters, gives the configured metering and limit and leaves the flag exact |
| `Runtime.QuotasAreNext` | src/runtime.rs:217-268 | after a reload exactly the configured users have a quota |
| `Runtime.NextKeepsCounters` | src/runtime.rs:232-266 | a live user keeps its counters, a new one has its row's totals and bill or starts from zero, and every limit is the ledger's, or the quota or share |
| `Runtime.RulesAfter` | src/runtime.rs:269-282 | the rules then running are exactly the wanted ones, and those that ran before are untouched |
| `Runtime.StaysUnshared` | src/runtime.rs:166-282 | after a reload no two rules share a target pool or a socket, kept or new |
| `Runtime.LiveRuntime.Apply` | src/runtime.rs:132-321 | succeeds if and only if every planned bind does and, when there are new users, their usage loads; an error changes no rule, user, limit or pool; success runs exactly the enabled rules, keeps untouched sockets and pools, hands sockets over, shares none, keeps live users' counters, restores new users from their rows, sets every limit and publishes one pool per distinct key |
| `ConfigStore.Supervisor.Restore` | src/main.rs:301-329 | a store is used exactly when it loads, was made on this text and still passes; one that loads and is not used is removed |
| `ConfigStore.Supervisor.Start` | src/main.rs:144-149 | a start takes the file or the file with the stored edits, at revision 0 |
| `ConfigStore.Supervisor.Publish` | src/main.rs:331-339 | each publication has the next revision |
| `ConfigStore.Supervisor.Reload` | src/main.rs:267-278 | a changed file is remembered even when rejected, and an accepted one drops the panel's store |
| `ConfigStore.Supervisor.Save` | src/main.rs:366-415 | a save is refused or published; a refused one leaves the store's file and the live configuration as they were |
| `ConfigStore.RunKeepsStore` | src/main.rs:264-287 | over every run of reloads, saves and restarts, the revision counts publications, a store loads exactly when the live configuration came from the panel, and the live configuration is the accepted file with the stored edits |
| `ConfigStore.RevisionsGrow` | src/main.rs:331-339 | while one process runs, publications are only added, so a revision never means two configurations |
| `ConfigStore.NoLostUpdate` | src/main.rs:366-377 | a page is turned away exactly when something was published since it loaded; when taken, it edits the configuration it showed |
| `ConfigStore.PageIsTaken` | src/main.rs:366-394 | after any run, restarts included, a page is taken if and only if it carries the present process's revision, passes and is written; it edits what this process published under that revision |
| `ConfigStore.SavedIsTheEdit` | src/main.rs:378-414 | a taken save has the edit's quota, single-user flag, users and accounting, keeps everything else, and stores the same with the text it was made on |
| `ConfigStore.BlankSecretKeepsSecret` | src/panel.rs:117-123 | a blank secret keeps the one in force |
| `ConfigStore.RestartReproduces` | src/main.rs:301-329 | after every run, restarting on the text last accepted reproduces the live configuration and touches no file, if the text does not move the store |
| `ConfigStore.RestartReproducesExactly` | src/main.rs:279-329 | after every run, it reproduces the live configuration if and only if the text leaves the store in place or the store found at the new path, if any, says the same as the one in use, if any |
| `ConfigStore.RestartOnAnyText` | src/main.rs:268-329 | after every run and whether the text held was accepted or not, the exact condition for a restart on it to reproduce the live configuration, and when the store is used |
| `ConfigStore.MovedStoreExample` | src/main.rs:279-284 | a run that loses a saved edit this way |
| `ConfigStore.LeftoverStoreExample` | src/main.rs:301-329 | a run in which nothing was saved and a restart brings back an old store's users |
| `ConfigStore.RefusedTextExample` | src/main.rs:341-364 | a run in which a refused reload makes a restart lose the saved edit |
| `ConfigStore.RestartForgetsRevisions` | src/main.rs:186-190 | a page sent to a later process is taken if and only if its revision is the number of publications since; with none, after a restart in place, it edits what it showed if and only if that was still live |
| `ConfigStore.StalePageExample` | src/main.rs:186-190 | a run from an empty disk in which that happens |
| `StateDb.SkippingIsInvisible` | src/state.rs:118-129 | writing only rows that differ from the cache leaves the table as writing all of them would |
| `StateDb.SharedNameIsWrittenBack` | src/state.rs:118-129 | with two users of one name it would not |
| `StateDb.CacheIsTransparent` | src/state.rs:118-162 | over every run of flushes, failures and reopenings the table is that of unconditional upserts |
| `StateDb.FlushedUsageSurvives` | src/state.rs:83-162 | a quota restored from its flushed row is the live one rolled to the hour of the restart |
| `StateDb.Database.Flush` | src/state.rs:118-162 | a flush writes the whole batch or nothing and keeps the cache true |
| `StateDb.Database.SaveBook` | src/state.rs:176-206 | book and lines are saved together or not at all |
| `StateDb.Database.RecentEntries` | src/state.rs:208-245 | reading newest first and turning around gives the readable ones among the newest rows, oldest first |
| `StateDb.KindRoundTrip` | src/ledger.rs:34-56 | every entry kind reads back from its text |
| `StateDb.RowsRoundTrip` | src/state.rs:186-245 | stored lines read back as they were |
| `StateDb.NewestRoundTrip` | src/state.rs:208-245 | the newest rows read back as the newest lines written |
| `StateDb.LastAre` | src/state.rs:208-218 | the newest rows are the last of the table, all when there are no more |
| `Engine.Engine.constructor` | src/main.rs:150-156 | a start takes the saved book and the newest 500 lines |
| `Engine.Engine.Commit` | src/accounting.rs:245-263 | memory changes only when the save succeeds, and the ring then holds the newest 500 lines |
| `Engine.Engine.SyncWith` | src/accounting.rs:286-319 | a sync commits the reconciled copy of the book, or leaves everything as it was |
| `Engine.FirstSyncSharesOut` | src/accounting.rs:286-317 | the first sync leaves nothing unallocated if and only if users are left when it reads them again, or there is nothing to share |
| `Engine.Engine.Transfer` | src/accounting.rs:321-331 | so does a transfer |
| `Engine.Engine.Allocate` | src/accounting.rs:333-348 | so does an allocation |
| `Engine.RunAgrees` | src/accounting.rs:245-263 | over every run of operations, refusals, failed saves and restarts, memory and storage hold the history of the committed operations: book, newest lines, all lines |
| `Engine.RestartIsInvisible` | src/main.rs:150-156 | with a state file, a restart anywhere changes neither book nor newest lines |
| `Engine.StorageIsAudited` | src/accounting.rs:245-263 | every stored balance is the sum of the user's stored rows plus charges and unlogged sweeps |
| `Engine.ApplyLimits` | src/accounting.rs:229-243 | a migrated book's limits are kept for reloads, and while remote accounting is on every quota is held to them, or to what it used if the book does not know it |
| `Engine.ReloadAgrees` | src/runtime.rs:222-230 | a reload gives a user the limit the engine gives it |
| `Engine.AppliedLimitCutsOff` | src/accounting.rs:229-243 | a user is cut off exactly when nothing positive is left of its balance |

## Left out

- 64-bit saturation: `signed`, `saturating_add` and the `u64` clamp are not modelled, as amounts stay far below 2^63; counters do not wrap.
- Config.CheckTarget: does not treat socket-address literals apart, since they have the shape of a host and a port anyway.
- Relay.ForwardedInOrder: counts a packet handed to the socket as forwarded even if the send then fails; what the network does with it is outside.
- Relay.RunKeeps: the downstream direction, idle deadlines and reopening on failover appear only as teardowns that may happen at any time.
- TcpCopy.RunKeeps: pipe capacities and their growth, and the half-close at end of file, are not modelled; the end of a copy is one event.
- Spending.NobodyOutspends: speaks of a fixed set of users with remote accounting on, quotas flushed before a restart, and each quota operation as one step; users that come and go with a reload are left out.
- QuotaRace.StepKept: assumes sequentially consistent steps; the acquire and release orderings in the source justify the order of the two that matter. The exhausted flag is claimed exact for sequential runs only, since a consumer's store can follow a limit change that already cleared it.
- Pool.TargetPool.ConnectActive: runs without interference from other tasks; `Rearm` covers the interleavings of the health flags and the index. Probing and the freshness of confirmations are left out.
- Segments.Send: how the kernel cuts a segmented send is taken to be the stride.
- Runtime.LiveRuntime.Apply: quotas are values by user name here, so that a kept user keeps its very quota object is expressed by its counters only; the final flush of removed users is `StateDb.Database.Flush`.
- ConfigStore.RunKeepsStore: assumes, like the program, that removing or putting back the store's file succeeds; a failed write of a new store is modelled.
- StateDb.Database.Flush: SQL, the write-ahead log and checkpoints are left out; a transaction happens or leaves no trace. The upgrade of the old schema is the function `Quota.Upgraded`.
- Engine.Engine.SyncWith: the fetch from the provider, timers, the published status and error texts are left out.
- The panel's pages and sessions, the API's routes and tokens, the provider's client and request signing, DNS, socket options, file watching and logging are plumbing around these components.
- Parsing of sizes, JSON5 and YAML is left to the libraries; a configuration text parses as `Rules` says, and the stored book and store are read back as written.
