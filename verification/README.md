# Verified model of the panel's traffic accounting and its caches

This project models, in Dafny, the parts of the panel where a wrong step loses or doubles
something: the traffic-billing jobs, the batch/acknowledge protocol with the nodes, the host and
core managers, database rollback, the line and context matching of the upstream inventory, the
notification spool and webhook delivery, the certificate stripper and the shutdown budget. Every
main result is a statement about all inputs, all runs or all reachable states.

`dafny verify dfyconfig.toml` checks the whole project.

## How the modules fit together

| module | models |
|---|---|
| `MapSums`, `NatSets` | sums of map values, least elements and sizes of finite sets |
| `UsageAggregation` | totals per user and chart rows per user and node, sequential and sharded |
| `FencedUsage` | discards, epoch fences and the billing transaction |
| `RetriedTransaction` | the retry loop around a transaction and the in-doubt test |
| `UsageTicks` | the user-usage job as a step machine: resets, polls, cohorts, failures, commits in doubt |
| `StatBatches`, `TwoPhaseProtocol`, `OwnProcess` | settling of batches, and runs of panel and node processes over it |
| `NodeUsage` | the node-usage job and its backlog |
| `HistoryBuffer` | the buffer of chart history rows |
| `HostCache`, `HostRuns`, `HostBroadcast`, `HostWorkers`, `HostProgress` | the host manager: installing views, interleavings in one worker, publishing to all workers, both together, and that none of it gets stuck |
| `CoreIndex` | the core manager: inbound index and guarded reloads |
| `Rollback` | the downgrade loop over the revision graph |
| `LineCarry`, `ContextMatch` | carrying lines through hunks, greedy matching with slack |
| `NotificationSpool`, `WebhookDelivery` | the spool over a crash, and acknowledging or handing back webhook items |
| `ByteLines`, `CertBundle`, `CertStrip` | lines of bytes, splitting a bundle, stripping it |
| `ShutdownBudget` | deadlines of the shutdown phases and of the usage drain |

State that the code updates in place is a class (`Recorder`, `NodeUsageRecorder`, `Buffer`,
`HostManager`, `CoreManager`, `Database`, `Spool`, `Run`, `Lifecycle`) whose methods are proved
against functions or relations on values; the statements over all runs are lemmas about those.
Awaits are the points where a step machine may interleave. I/O, clocks and node answers are
inputs of a step or nondeterministic choices.

## What was found

- Two-phase billing is not safe in every run (`TwoPhaseProtocol.SomeRunBillsTwice`): when two node
  ids name one node process and one id is pointed at another process, settling the other process's
  batch deletes the record of a batch the first process still holds, which is then billed again.
  `ForgettingBillsTwice` shows that each such deletion can lead to a second bill, and
  `EveryCarefulRunBillsOnce` that nothing else does. `OwnProcess.OwnProcessesBillOnce` gives the
  condition an operator can check: each node id is pointed once, at a process of its own. Nothing
  is silently lost then either (`OwnProcess.OwnProcessesLoseNothing`).
- A host created under the id of a host whose removal has not taken its stamp yet can end up missing from the
  cache although its row exists (`HostRuns.ReusedIdLosesTheHost`). The `hosts` table, unlike users
  and nodes, may give an id again on SQLite (app/db/models.py:634). The condition is exact: as long as no
  row that prepares is created under such an id the cache is right after every interleaving
  (`HostRuns.FinishedOperationsLeaveTheCacheRight`), and from any state a step that breaks it can
  lead to the loss (`HostRuns.CarelessStepCanLoseTheHost`).
- A removal of a core that the worker does not hold can be overwritten by a reload that had read the
  core before (`CoreIndex.RemovalIsOverwritten`). The core stays out exactly when something took effect
  while the reload was reading (`CoreIndex.RemovedCoreStaysOutExactlyWhen`), and the removal of a core
  that is held is always enough (`CoreIndex.RemovalOfAHeldCoreSurvives`).
- Webhook items can end neither acknowledged nor handed back although every `_settle` completes: when
  the run is cancelled inside an enqueue of its `finally` section
  (`WebhookDelivery.CancelledRequeueLeavesAnItem`). `WebhookDelivery.Run.SendNotifications` states this as
  an if-and-only-if.
- The marker counts at the end of `split_entries` never refuse anything (`CertBundle.CountNeverRefuses`).
  With the genuineness test off, a stripped bundle can start with a byte order mark and is then refused
  (`CertStrip.StrippedBundleCanBeRefused`), and only then (`CertStrip.ContentReadsAsKept`); a blank line after a CR can merge into the break before
  it, which changes no certificate.
- Entries that go back to the spool after a failed restore are written without the cap of 10,000
  (`NotificationSpool.Spool.PutBack`), so that the next shutdown can cut an entry that was saved
  before (`NotificationSpool.FailedRestoreThenShutdown`, with the case of `SavedEntriesCanBeCut`).

## Model

| member | source | states |
|---|---|---|
| `UsageAggregation.AddParams` | app/jobs/record_usages.py:1221-1224 | one node's params raise each user's total by exactly that node's bytes for the user, and touch no other key |
| `UsageAggregation.ProcessUsageSync` | app/jobs/record_usages.py:1217-1225 | the sequential path gives every user exactly the sum over all readings, and lists exactly the users read |
| `UsageAggregation.ProcessNodeChunk` | app/jobs/record_usages.py:140-151 | a chunk's dict holds each of its users with the chunk's bytes |
| `UsageAggregation.MergeUsageDicts` | app/jobs/record_usages.py:154-164 | merging adds up per user over all dicts, with exactly their keys |
| `UsageAggregation.AnyGroupingMerges` | app/jobs/record_usages.py:1255-1266 | for any grouping of the dicts, merging groups and then the partial results is merging everything at once |
| `UsageAggregation.ChunkDictsMerge` | app/jobs/record_usages.py:1252-1266 | one dict per chunk merges to the sequential fold over the chunks |
| `UsageAggregation.ProcessUsageSharded` | app/jobs/record_usages.py:1250-1268 | the executor path, for any number of chunks, gives the totals of the sequential fold |
| `UsageAggregation.MergeInGroups` | app/jobs/record_usages.py:1255-1264 | slices of any positive size merge to the same totals |
| `UsageAggregation.WithParamsMeansTheSame` | app/jobs/record_usages.py:1228-1232 | leaving out nodes without params changes no total |
| `UsageAggregation.CalculateUsersUsage` | app/jobs/record_usages.py:1212-1271 | every path, with or without a working pool, gives the sequential totals |
| `UsageAggregation.PrepareChartRows` | app/jobs/record_usages.py:697-721 | one row per user and node with bytes, holding exactly the bytes read there |
| `UsageAggregation.ChartSumsToDelta` | app/jobs/record_usages.py:697-721 | a user's chart rows sum over the nodes to exactly the user's delta |
| `FencedUsage.DiscardTotals` | app/jobs/record_usages.py:1284-1302 | discarding users zeroes them, in the totals and in each chart row, and leaves everybody else alone |
| `FencedUsage.PrepareWrite` | app/jobs/record_usages.py:1531-1586 | what is submitted is exactly the positive totals of users with a row and an unchanged epoch; each chart row holds the bytes of its own user and node, and the rows sum to what is submitted |
| `FencedUsage.KeepValid` | app/jobs/record_usages.py:1543-1567 | users kept are those found and not reset since the poll |
| `FencedUsage.ChartOfUsers` | app/jobs/record_usages.py:1569-1578 | one row for each kept user and node with bytes, holding those bytes and summing to the user's total, and no row for anybody else |
| `FencedUsage.UnknownUsers` | app/jobs/record_usages.py:1569-1574 | exactly the users read that have no row, whom the chart leaves out |
| `FencedUsage.EveryByteIsAccountedFor` | app/jobs/record_usages.py:1543-1567 | bytes read are the bytes submitted plus those of unknown users plus those of reset users |
| `FencedUsage.ApplyFencedUserUsage` | app/jobs/record_usages.py:1328-1391 | a committed write bills exactly the unfenced deltas, billed plus fenced is what was submitted, each admin gets the sum of its own billed users, chart rows of fenced users are dropped |
| `FencedUsage.UpdateTraffic` | app/fork/jobs/fenced_traffic.py:7-37 | for any deltas, counters grow by the delta exactly where user and epoch match, and nowhere else |
| `FencedUsage.AdminTotals` | app/jobs/record_usages.py:1363-1368 | each admin's total is the sum over its own billed users |
| `FencedUsage.UpdateAdmins` | app/jobs/record_usages.py:1321-1326 | existing admins grow by their totals, others are untouched |
| `FencedUsage.BillingConserves` | app/jobs/record_usages.py:1351-1371 | the users' counters together grow by exactly the billed bytes |
| `FencedUsage.ChartMatchesBill` | app/jobs/record_usages.py:1344-1361 | after the fences, a billed user keeps for each node the row with its bytes there, which sum to the bytes billed, and nobody else keeps a row |
| `RetriedTransaction.RunInRetriedTransaction` | app/jobs/record_usages.py:586-629 | attempts go on up to the first that commits, raises something else, fails for good, finds the database locked again or is the fifth; the ending is that attempt's, and the writes take effect at most once |
| `RetriedTransaction.RunTakesEffectOnce` | app/jobs/record_usages.py:586-629 | the writes of a run take effect at most once, and not at all when the failure is not in doubt or is a missing parent |
| `RetriedTransaction.DoubtIsReal` | app/jobs/record_usages.py:1685-1690 | whatever counts as in doubt, and a driver can report of a commit that landed, is the ending of a run whose writes took effect |
| `RetriedTransaction.RunAgainWithoutParent` | app/jobs/record_usages.py:1393-1404 | a second run happens exactly when the first missed a parent row, and its ending is then returned; over both the writes take effect at most once |
| `UsageTicks.Recorder.KeepOrAbandonRetained` | app/jobs/record_usages.py:1693-1722 | a failed cohort goes back to the front with its single-phase part, unless in doubt or at the limit |
| `UsageTicks.Recorder.RetainFinishedCollections` | app/jobs/record_usages.py:1636-1662 | answers not processed are kept as one cohort at the end |
| `UsageTicks.Recorder.PersistRetainedCohorts` | app/jobs/record_usages.py:1725-1736 | cohorts are written in order up to the first failure, and only the failed one changes |
| `UsageTicks.StepKeepsInv` | app/jobs/record_usages.py:1774-1864 | every step of a tick, reset, poll, write or failure keeps the invariant, with the reason for each finished or given-up read, the exact counters and the epochs of the users when each cohort's tick began |
| `UsageTicks.CommitIsHonest` | app/jobs/record_usages.py:1531-1586 | a write lists each answer of its cohort once, bills a user all of the user's bytes, and bills exactly the users with bytes who had a row, and were not reset since the cohort's tick began, both when it was prepared and when it committed |
| `UsageTicks.KeepsCounters` | app/jobs/record_usages.py:1344-1371 | each user's counter is exactly what was billed since the user's last reset |
| `UsageTicks.EveryRunIsSafe` | app/jobs/record_usages.py:1475-1736 | over every run: no single-phase read is in two committed writes; each is kept in one place, or finished with by the committed write that holds it, or given up for a commit in doubt or its tenth failure; nothing that a node still keeps is retained; every write is of what the nodes replied, less batches billed before, and bills exactly the users with bytes who were not gone or reset since its tick began; counters are exact; every poll is followed to its end; a collection stops by the rule and polls nobody before what earlier ticks read is dealt with; a tick without a failed write leaves nothing retained |
| `UsageTicks.KeepsPolls` | app/jobs/record_usages.py:1665-1682 | a destructive poll once issued ends with an answer or a failure or is still being waited for, whatever stops the collection |
| `UsageTicks.KeepsStopRule` | app/jobs/record_usages.py:1824-1862 | a collection goes on exactly until a write fails for good, two in a row fail, or every task is done |
| `UsageTicks.KeepsEarlierReads` | app/jobs/record_usages.py:1725-1841 | while nodes are polled nothing read in an earlier tick is still to be written |
| `UsageTicks.KeepsWritesGenuine` | app/jobs/record_usages.py:1510-1528 | every answer in a committed write is what its node replied, emptied exactly if its batch was found to be billed already |
| `UsageTicks.FoundStaleStaysOut` | app/jobs/record_usages.py:1510-1528 | once a write finds that batches were billed before, nothing of them is in it however it goes on |
| `UsageTicks.KeepsCleanTicks` | app/jobs/record_usages.py:1725-1864 | a tick in which no write failed leaves nothing retained |
| `UsageTicks.TickCanBillWhatItReads` | app/jobs/record_usages.py:1837-1864 | from any state between ticks with nothing retained, and for whatever a node answers, a tick can bill every user exactly that |
| `UsageTicks.EveryTickCanEnd` | app/jobs/record_usages.py:1774-1864 | whatever a run is in the middle of, its tick can end |
| `UsageTicks.GivenUpExactlyWhen` | app/jobs/record_usages.py:1693-1722 | a read is given up exactly when a write of it is in doubt or ten writes of it failed |
| `UsageTicks.BetweenTicksReadsAreRetained` | app/jobs/record_usages.py:1604-1736 | between ticks every poll has ended, and a read is in a committed write, or given up in doubt or at the limit, or in the retained list after fewer than ten failed writes |
| `StatBatches.FindStale` | app/fork/jobs/stat_batches.py:163-171 | a batch is refused exactly when it was settled before or an earlier node of the same write carries it |
| `StatBatches.SettleBatches` | app/fork/jobs/stat_batches.py:145-202 | either exactly the stale nodes are refused, or the table changes exactly as `Settles` says, epoch by epoch |
| `StatBatches.WriteBatches` | app/fork/jobs/stat_batches.py:173-202 | the write loop leaves each epoch at its highest id and last node, and deletes exactly the orphaned rows |
| `StatBatches.RecordSurvivesExactly` | app/fork/jobs/stat_batches.py:194-202 | a recorded batch stays recorded exactly when the write does not orphan its epoch |
| `StatBatches.SettlingKeepsOneRowPerNode` | app/fork/jobs/stat_batches.py:194-202 | no node ever has two rows |
| `StatBatches.AckOnlyRoundSettles` | app/fork/jobs/stat_batches.py:69-73 | once the stale batches are ack-only, the same table refuses nothing |
| `StatBatches.RecordedIdIsBilled` | app/fork/jobs/stat_batches.py:163-193 | the id an epoch is left at was there before or is of a batch billed by this write |
| `StatBatches.PersistUntilSettled` | app/jobs/record_usages.py:1510-1528 | each refused round had a stale batch and the next bills exactly the others; the loop ends within one round per billable batch and settles the same batches, those with an id |
| `TwoPhaseProtocol.StepKeepsInv` | app/jobs/record_usages.py:185-208 | every step that forgets no batch keeps the protocol's invariant |
| `TwoPhaseProtocol.EveryCarefulRunBillsOnce` | app/jobs/record_usages.py:1510-1528 | over every run that forgets no batch, each batch is billed at most once, and dropped only after it was billed and for good |
| `TwoPhaseProtocol.MemoryIsFresh` | app/jobs/record_usages.py:185-208 | the panel acts only on batches, epochs and acknowledgements that it was told and has not lost since by a restart, a new collection, a write or a poll |
| `TwoPhaseProtocol.RestartedProcessIsEmpty` | tests/test_recorder_two_phase_drain.py:33-105 | a process that restarts without its batch holds none until it is polled |
| `TwoPhaseProtocol.ForgettingBillsTwice` | app/fork/jobs/stat_batches.py:194-202 | whenever a write forgets a batch, the run can go on to bill it twice |
| `TwoPhaseProtocol.SomeRunBillsTwice` | app/fork/jobs/stat_batches.py:194-202 | a concrete reachable state has billed one batch twice |
| `OwnProcess.OwnProcessesBillOnce` | app/jobs/record_usages.py:1328-1330 | while each node id is pointed once and at its own process, every run bills each batch at most once, whatever is lost, restarted or in doubt |
| `OwnProcess.OwnProcessesLoseNothing` | app/fork/jobs/stat_batches.py:76-124 | under the same condition every batch ever made was billed, is still held, or went with a restart that did not keep it: an id has a row from its first request on and never asks without an acknowledgement while its process holds a batch |
| `OwnProcess.OwnIsCareful` | app/fork/jobs/stat_batches.py:145-202 | under that condition no write loses the record of a batch that can still arrive |
| `NodeUsage.SumNodeTotals` | app/jobs/record_usages.py:1918-1925 | per node and direction the sum over the parts, nodes without traffic left out |
| `NodeUsage.WriteNodeUsage` | app/jobs/record_usages.py:1944-1962 | System grows by exactly the sum of the node totals and each existing node by its own |
| `NodeUsage.WriteNodeChart` | app/jobs/record_usages.py:1965-1977 | the bucket's row of each existing node grows by its total, and each node that is gone leaves a row of its own without a node, so no byte is missing |
| `NodeUsage.NodeUsageRecorder.KeepOrAbandonNodeUsage` | app/jobs/record_usages.py:1993-2018 | entries are kept in order with one more attempt, unless in doubt or at the limit |
| `NodeUsage.NodeUsageRecorder.RecordNodeUsages` | app/jobs/record_usages.py:2059-2104 | it returns early exactly when there is no backlog, no read and no batch; a write holds the exact sum of backlog and reads, a failure keeps exactly what the rule says |
| `NodeUsage.NothingMeansNoBacklog` | app/jobs/record_usages.py:2073-2077 | an empty sum means that there was no backlog |
| `NodeUsage.EveryRunOfTicksIsSafe` | app/jobs/record_usages.py:2021-2104 | over every run of ticks traffic is written at most once, else retained whole with positive bytes or given up, and each read ended exactly as the ends of the ticks since say |
| `NodeUsage.ReadsEndByRule` | app/jobs/record_usages.py:1993-2018 | a read is finished with by the first tick that recorded, given up by the first in doubt or the tenth clean failure, and until then retained |
| `NodeUsage.SystemCountsWhatWasWritten` | app/jobs/record_usages.py:1950-1962 | over every run of ticks, the same as in `EveryRunOfTicksIsSafe`, System is exactly the reads that were written and the batch totals written with them |
| `HistoryBuffer.DropsOnlyBehindSixNewer` | app/jobs/record_usages.py:779-791 | at most six buckets are kept, and a dropped row is behind six newer kept ones |
| `HistoryBuffer.FailedRolloverKeepsIncoming` | app/jobs/record_usages.py:847-863 | a failing rollover flush loses no incoming row |
| `HistoryBuffer.EveryRunAccountsForItsRows` | app/jobs/record_usages.py:779-872 | over every run at most seven buckets are pending, and every byte is flushed, pending, or dropped behind six newer buckets |
| `HistoryBuffer.Buffer.FlushLocked` | app/jobs/record_usages.py:794-821 | the new state of a flush, taken by the database or not |
| `HistoryBuffer.Buffer.FlushWhenDue` | app/jobs/record_usages.py:824-838 | flushes exactly when due |
| `HistoryBuffer.DueFlushIsOnTime` | app/jobs/record_usages.py:824-838 | all pending rows are flushed once the interval since the last flush is over, and none before |
| `HistoryBuffer.RecordIsOnTime` | app/jobs/record_usages.py:847-872 | rows of an earlier bucket and rows pending for an interval are flushed with the next rows recorded, and until then rows are only collected |
| `HistoryBuffer.Buffer.BufferHistoryRows` | app/jobs/record_usages.py:841-844 | adds each row to its key |
| `HistoryBuffer.Buffer.RecordUserStats` | app/jobs/record_usages.py:847-872 | the new state over rollover, buffering and the due flush |
| `HistoryBuffer.BufferedAt` | app/jobs/record_usages.py:841-844 | each key grows by exactly the sum of its rows |
| `HostRuns.StampStillOwes` | app/core/hosts.py:658-660 | a new stamp is above all others: what an operation owed before it took its stamp it still owes |
| `HostCache.HostManager.ClaimHost` | app/core/hosts.py:665-671 | refuses exactly a stamp older than the host's |
| `HostCache.HostManager.AddPreparedHostsLocal` | app/core/hosts.py:722-742 | installs host by host exactly the claimed entries, removals last, and counts a generation |
| `HostCache.HostManager.RemoveHostLocal` | app/core/hosts.py:804-806 | the newest stamp always claims, so the host goes and nothing else changes |
| `HostCache.HostManager.InstallReload` | app/core/hosts.py:595-611 | replaces the hosts exactly when nothing changed since the generation was read |
| `HostCache.PrepareHosts` | app/core/hosts.py:744-771 | the rows asked for that are enabled, have a known inbound and build are listed with their data, every other id is listed for removal, and both lists together are the view of the rows |
| `HostCache.AllPreparedServes` | app/core/hosts.py:584-593 | a reload holds a host exactly when its row is enabled, its inbound is known and its settings build, with that data |
| `HostRuns.StepKeeps` | app/core/hosts.py:595-776 | every interleaved step keeps the invariant that each host is right or owed an install |
| `HostRuns.FinishedOperationsLeaveTheCacheRight` | app/core/hosts.py:653-806 | once all operations have finished, the cache holds exactly the hosts whose row is enabled, has a known inbound and builds, each with its data, if no row that prepares was created under the id of a removal without its stamp |
| `HostRuns.ReloadEndsByRule` | app/core/hosts.py:595-611 | a reload reads at most three times; it ends by installing what it read while nothing changed, or is given up after the hosts changed at least three times since it started |
| `HostRuns.UndisturbedReloadServes` | app/core/hosts.py:584-611 | a reload that nothing disturbs leaves exactly the hosts whose row is enabled, has a known inbound and builds |
| `HostRuns.CarelessStepCanLoseTheHost` | app/core/hosts.py:801-806 | from any state a run can be in, a step that breaks that condition can lead to all operations finished and a host missing |
| `HostRuns.ReusedIdLosesTheHost` | app/operation/host.py:175-181 | such a run exists from every start: a host deleted, its id given again |
| `HostBroadcast.MessagesAreInStampOrder` | app/core/hosts.py:778-811 | messages sent for one host are in the order of their stamps |
| `HostBroadcast.WorkersAgreeWithThePublisher` | app/core/hosts.py:619-640 | when all is heard, every worker and the publisher hold the publisher's last entry for each host sent |
| `HostBroadcast.ItemsInstallTheSame` | app/core/hosts.py:787-795 | the messages, in their order, leave what installing both lists leaves |
| `HostBroadcast.CurrentEntries` | app/core/hosts.py:782-784 | what an operation still sends are its entries for exactly the hosts it claims |
| `HostWorkers.StepKeeps` | app/core/hosts.py:744-811 | operations and messages stay in step: same stamps, the lock holder sends what it will install, and what was installed is what the operations made |
| `HostWorkers.EveryWorkerHoldsWhatTheRowsPrepare` | app/core/hosts.py:619-811 | once one publisher's operations have finished and all is heard, every worker holds exactly the hosts whose row is enabled, has a known inbound and builds, each with its data |
| `HostProgress.LockIsReleased` | app/core/hosts.py:778-811 | whoever holds the publish lock finishes, and no other operation is touched |
| `HostProgress.EveryRunCanSettle` | app/core/hosts.py:619-811 | whatever a run is in the middle of, it can go on to where every operation has finished, every message was heard and every worker serves the rows |
| `CoreIndex.BuildInboundIndex` | app/core/manager.py:240-248 | each tag resolves to the highest core id that defines it, and no other tag is listed |
| `CoreIndex.IndexIsUnique` | app/core/manager.py:240-248 | there is only one such index, whatever order the cores came in |
| `CoreIndex.CoreManager.UpdateInbounds` | app/core/manager.py:250-257 | the index is that of the cores in memory |
| `CoreIndex.CoreManager.UpdateCoreLocal` | app/core/manager.py:277-281 | one core is replaced, a generation counted, and the index is that of the new cores |
| `CoreIndex.GenerationCountsEffects` | app/core/manager.py:277-306 | over any run the generation grows exactly when an update, a removal of a held core or a reload took effect, and unchanged means unchanged cores |
| `CoreIndex.CoreManager.RemoveCore` | app/core/manager.py:299-306 | removes the core, and counts a generation exactly if it was held |
| `CoreIndex.CoreManager.InstallCores` | app/core/manager.py:102-107 | replaces the cores exactly when the generation is unchanged |
| `CoreIndex.FinishedOperationsLeaveTheIndexRight` | app/core/manager.py:102-122 | over every interleaving, once all have finished the index is that of the cores |
| `CoreIndex.OperationsCanFinish` | app/core/manager.py:250-257 | whatever index updates are owed, they can be done, and the index is then that of the cores |
| `CoreIndex.LastChangeIsHeld` | app/core/manager.py:277-306 | until a reload ends, a core is what it was last updated to, and one removed last is not there |
| `CoreIndex.ReloadInstallsExactlyWhenNothingChanged` | app/core/manager.py:112-122 | a reload overwrites nothing that took effect while it was reading, and installs if nothing did |
| `CoreIndex.ReloadEndsByRule` | app/core/manager.py:112-122 | a reload reads at most three times; an attempt that met a change is tried again with the present generation, and after the third it is given up, the cores having changed at least three times since it started |
| `CoreIndex.RemovedCoreStaysOutExactlyWhen` | app/core/manager.py:102-122 | a removed core that a reload under way had read stays out exactly when something took effect while it was reading |
| `CoreIndex.RemovalOfAHeldCoreSurvives` | app/core/manager.py:299-306 | a reload under way never brings back a core that was held when it was removed |
| `CoreIndex.RemovalIsOverwritten` | app/core/manager.py:299-306 | a concrete run brings a removed core back |
| `Rollback.Lineage` | app/fork/db_rollback.py:54-58 | exactly the revisions with everything below them |
| `Rollback.RevisionsToRemove` | app/fork/db_rollback.py:61-71 | each refusal exactly when its condition holds, else what is applied and not below the target |
| `Rollback.NextStepExists` | app/fork/db_rollback.py:74-80 | while something is left to remove, a step exists and removes something |
| `Rollback.StepIsSafe` | app/fork/db_rollback.py:74-90 | no ancestor of the target is removed and the applied set stays closed under ancestors |
| `Rollback.NothingLeft` | app/fork/db_rollback.py:103-113 | with nothing left the only head is the target |
| `Rollback.HeadsSpan` | app/fork/db_rollback.py:34-44 | the heads' lineage is the applied set |
| `Rollback.NextStepTakes` | app/fork/db_rollback.py:74-90 | a step goes down to the target if a head is above it, else takes away one head that has to go |
| `Rollback.Database.DowngradeUntil` | app/fork/db_rollback.py:93-113 | ends with exactly the target exactly when the target is known and applied and no head is foreign, by steps that each shrink the applied set; never stuck, never without progress |
| `Rollback.Database.RollBack` | app/fork/db_rollback.py:116-137 | a dry run changes nothing, a refusal changes nothing, and the last comparison always holds |
| `LineCarry.Land` | scripts/upstream_inventory.py:1779-1787 | the shift from the last preceding hunk is the accumulated insertions minus deletions; a changed line lands on its replacement |
| `LineCarry.ReplacementIsTheOtherSide` | scripts/upstream_inventory.py:1779-1787 | a changed line lands exactly on the lines that the reversed hunk changes, or on both sides of the gap |
| `LineCarry.UnchangedLandsOnTheSameText` | scripts/upstream_inventory.py:1781-1787 | an unchanged line lands on the same text |
| `LineCarry.CarryingBackReturnsTheLine` | scripts/upstream_inventory.py:1781-1787 | carrying back through the reversed diff returns the line |
| `LineCarry.UnchangedLinesKeepTheirOrder` | scripts/upstream_inventory.py:1781-1787 | unchanged lines land in their order |
| `LineCarry.KeptLineNumbers` | scripts/upstream_inventory.py:1259-1265 | exactly the lines that are not comments and not empty, ascending |
| `LineCarry.CarriedPositions` | scripts/upstream_inventory.py:1767-1788 | a position is carried to exactly where some given position's line lands and is kept, with the early returns |
| `LineCarry.UnchangedPositionIsCarriedOrDropped` | scripts/upstream_inventory.py:1767-1788 | a position of an unchanged line goes to the same text, and is dropped exactly when that counts as a comment now |
| `ContextMatch.ContextFollows` | scripts/upstream_inventory.py:1290-1302 | accepts exactly when some order-preserving alignment of the whole context skips at most two lines, in either direction |
| `ContextMatch.MismatchIsSkipped` | scripts/upstream_inventory.py:1294-1298 | a line that does not match has to be skipped, at the cost of one |
| `ContextMatch.MatchIsTaken` | scripts/upstream_inventory.py:1299-1301 | taking the first match loses no alignment |
| `ContextMatch.BlockInPlace` | scripts/upstream_inventory.py:1305-1315 | true exactly when the block fits somewhere |
| `ContextMatch.BlockPositions` | scripts/upstream_inventory.py:1439-1450 | exactly the places where it fits, ascending, so nonempty exactly when the block is in place |
| `NotificationSpool.WrappedRoundTrip` | app/fork/notification_spool.py:52-70 | what is written reads back as the same entries |
| `NotificationSpool.EntriesAreSplit` | app/fork/notification_spool.py:86-94 | every entry of the list is valid or invalid and on that side, once each, and nothing else is |
| `NotificationSpool.EntriesOfBoth` | app/fork/notification_spool.py:86-94 | both sides keep the order of the list |
| `NotificationSpool.DrainedRoundTrip` | app/fork/notification_spool.py:117-121 | draining both queues and feeding the entries back restores both, in order |
| `NotificationSpool.SavedQueuesComeBack` | app/fork/notification_spool.py:125-135 | a start restores, per queue and in order, what interrupted restores left, then earlier entries, then the saved queue; only the cap takes any away |
| `NotificationSpool.Spool.CheckEntries` | app/fork/notification_spool.py:86-104 | what is returned are exactly the valid entries of the list, in order, and the invalid ones are all kept aside |
| `NotificationSpool.Spool.ExistingEntries` | app/fork/notification_spool.py:107-114 | the valid entries of the spool; an unreadable file is moved aside, and what of the spool cannot be sent is kept aside |
| `NotificationSpool.Spool.WriteSpool` | app/fork/notification_spool.py:52-70 | all or nothing, also when an error follows the replacement; what is saved anew no longer counts as enqueued |
| `NotificationSpool.Spool.PersistBacklog` | app/fork/notification_spool.py:117-151 | at every step everything saved is on disk, enqueued since it was last saved, or cut by the cap, and everything found that cannot be sent is still on disk; on success the spool holds old and new entries up to the cap |
| `NotificationSpool.Spool.EnqueueAll` | app/fork/notification_spool.py:176-180 | entries go to their queues in order up to the first one refused |
| `NotificationSpool.Spool.PutBack` | app/fork/notification_spool.py:181-184 | what is left of a failed restore is in front of the spool before its file goes |
| `NotificationSpool.Spool.RestoreFile` | app/fork/notification_spool.py:169-195 | entries go to their queues in order and the file goes, or what is not enqueued stays on disk |
| `NotificationSpool.Spool.Restore` | app/fork/notification_spool.py:198-220 | at every step nothing saved is lost and everything found that cannot be sent is still on disk; a claim that fails ends it; without failure all that was found is queued in order and off the disk |
| `NotificationSpool.FailedRestoreThenShutdown` | app/fork/notification_spool.py:125-135 | a failed restore that leaves more than the cap, and a shutdown with anything to save: the spool keeps the first entries of what was saved before and cuts the rest |
| `NotificationSpool.SavedEntriesCanBeCut` | app/fork/notification_spool.py:181-183 | a file and a spool, each within the cap, that are more than the cap together, and a saved entry that is cut |
| `NotificationSpool.Restart` | app/fork/notification_spool.py:117-220 | a shutdown and the next start return each queue's items in order |
| `WebhookDelivery.Run.Settle` | app/jobs/send_notifications.py:56-60 | items leave the list first; completed, all are acknowledged, else the rest is neither |
| `WebhookDelivery.Run.TakeItems` | app/jobs/send_notifications.py:87-115 | the items taken are those the queue gave; the ready list is exactly the due ones with tries left, the waiting list exactly those not due yet, both in order with their notes; the rest is acknowledged |
| `WebhookDelivery.Run.AfterFailure` | app/jobs/send_notifications.py:131-143 | each item of a failed batch waits with one more try and a new time, or is acknowledged when its tries are spent |
| `WebhookDelivery.Run.SendReady` | app/jobs/send_notifications.py:117-145 | every ready item is sent in a batch of at most fifty, and is acknowledged if delivered and otherwise waits or has had its tries |
| `WebhookDelivery.SentOnce` | app/jobs/send_notifications.py:117-126 | no item is sent twice, and items are sent in order |
| `WebhookDelivery.Run.Requeue` | app/jobs/send_notifications.py:152-159 | a replacement is enqueued before its item is settled; items whose enqueue fails stay unsettled; it completes exactly when no enqueue was cancelled |
| `WebhookDelivery.ReplacementIsRight` | app/jobs/send_notifications.py:131-159 | a replacement is the unchanged note of an item that was not due, or one more try after its failed batch and a timeout |
| `WebhookDelivery.Run.SendNotifications` | app/jobs/send_notifications.py:63-161 | no item is both acknowledged and released, every event is justified by earlier ones; with all settles complete every item is one of the two exactly when no final enqueue was cancelled; a run that is not interrupted delivers, replaces or acknowledges each item as its note says |
| `WebhookDelivery.CancelledRequeueLeavesAnItem` | app/jobs/send_notifications.py:149-156 | an item not due yet whose enqueue is cancelled in the final section ends neither acknowledged nor handed back, with every `_settle` complete |
| `WebhookDelivery.OneMoreEvent` | app/jobs/send_notifications.py:56-60 | an event after what allows it keeps the whole log justified |
| `ByteLines.SplitOfConcat` | scripts/distrust_certifi_roots.py:56-57 | joined lines split into the same lines, up to a lone LF after a CR |
| `ByteLines.ConcatOfSplit` | scripts/distrust_certifi_roots.py:56-57 | lines joined are the bytes they were cut from |
| `CertBundle.SplitEntries` | scripts/distrust_certifi_roots.py:49-77 | the loop computes `Split`, with every refusal |
| `CertBundle.SplitLosesNothing` | scripts/distrust_certifi_roots.py:49-77 | headers, blocks and trailer of an accepted bundle are the input |
| `CertBundle.CountNeverRefuses` | scripts/distrust_certifi_roots.py:75-76 | the final marker counts refuse nothing |
| `CertStrip.RunEntries` | scripts/distrust_certifi_roots.py:56-72 | the lines of any accepted entries read back as these entries |
| `CertStrip.ContentReadsAsKept` | scripts/distrust_certifi_roots.py:154-184 | what remains is accepted exactly when it does not start with a byte order mark, and then holds the kept certificates in order |
| `CertStrip.StrippedBundleCanBeRefused` | scripts/distrust_certifi_roots.py:49-51 | for any two base64 lines that decode, one to a distrusted certificate: an accepted bundle whose stripped content is refused for its byte order mark |
| `CertStrip.FirstForeignLine` | scripts/distrust_certifi_roots.py:121-131 | finds nothing exactly for a genuine bundle, else a line that is neither blank nor a comment |
| `CertStrip.GenuineHasNoMark` | scripts/distrust_certifi_roots.py:121-131 | a stripped genuine bundle never starts with a byte order mark |
| `CertStrip.PlanStrip` | scripts/distrust_certifi_roots.py:154-184 | the plan or the refusal that `PlanFor` gives |
| `CertStrip.PlannedExactlyWhen` | scripts/distrust_certifi_roots.py:160-183 | a bundle is planned exactly when it holds a certificate and none is distrusted, or one is not, every line belongs and the distrusted roots are no more than are known |
| `CertStrip.PlannedContentIsClean` | scripts/distrust_certifi_roots.py:154-194 | the planned content reads as exactly the kept certificates, as many as expected, none distrusted |
| `CertStrip.StrippingTwiceIsStrippingOnce` | scripts/distrust_certifi_roots.py:154-194 | planning again removes nothing and writes the same bytes |
| `CertStrip.AppliedIsPlanned` | scripts/distrust_certifi_roots.py:187-194 | the file ends up with the planned content whether or not anything was removed |
| `ShutdownBudget.Lifecycle.RunShutdownCallbacks` | app/lifecycle.py:79-109 | the callbacks that run are a prefix, whatever fails or is cut; each finds the deadline of its phase, which is then cleared |
| `ShutdownBudget.PhaseIsBounded` | app/lifecycle.py:79-109 | a phase ends by its deadline and skips callbacks only once its time is spent |
| `ShutdownBudget.OneIsBounded` | app/lifecycle.py:93-97 | a callback has its budget, and one that is cut the time it takes to end up to the deadline |
| `ShutdownBudget.FittingCallbacksAllRun` | app/lifecycle.py:86-95 | callbacks that fit up to the settling time all run and none is cut |
| `ShutdownBudget.PromptCallbacksAllStart` | app/lifecycle.py:86-102 | where callbacks end as soon as they are cut, none is skipped |
| `ShutdownBudget.Lifecycle.ShutDown` | app/lifecycle.py:112-121 | each phase is `PhaseOf` its deadline, the final one begins with at least its reserve left, and both end within the budget |
| `ShutdownBudget.DrainUsageJobs` | app/jobs/record_usages.py:1025-1050 | both waits together stay within the grace, and it drains exactly when ticks and flush fit |
| `ShutdownBudget.WholeGraceWhereItFits` | app/app_factory.py:171-177 | the drain has its whole grace where that and the tail fit the time left |
| `ShutdownBudget.DrainEndsBeforeTheCut` | app/app_factory.py:171-177 | a drain begun with at least the tail left returns before its callback is cut |
| `ShutdownBudget.Lifecycle.DrainInCallback` | app/app_factory.py:171-177 | the drain takes no longer than its timeout, with the tail left is over before the driver would cut its callback, and with the whole grace left drains whatever fits the grace |

## Assumptions

- A node's coefficient is any function on natural numbers; a missing one is a value like any other.
  The dict of params and the dict of coefficients are merged into one list of readings.
- The node side of the two-phase protocol is the one that tests/test_recorder_two_phase_drain.py:33-105
  sets down. An answer that names batch 0 carries no stats.
- A driver never reports a commit that landed as a retriable error or a broken constraint (`RetriedTransaction.IsTruthful`).
- User ids are never given again (tests/test_ids_are_never_reused.py:39-55).
- `head@-1` removes that head and `downgrade target` removes the strict descendants of the target.
- In the host and core managers, inbounds and download hosts stay as they are during a run.
- Hunks come in order with an unchanged line between two of them, and both versions of a file have
  the same line breaks for the diff and for `splitlines`.
- Base64 decoding, fingerprints and the distrust test are any functions. Bytes are the characters of the same code.
- Waits return when done or at their timeout; the time between them is not counted.

## Left out

- Cancellation of a usage tick itself: the job is shielded, and the cancelled path keeps cohorts without the in-doubt test.
- Which cohorts `_drain_node_collection` forms by size and age: `UsageTicks` allows any.
- Deferred chart history after a commit in doubt: the check whether the write landed is not modelled, nor that a history flush in doubt may be written twice.
- RetriedTransaction.RunInRetriedTransaction: does not model back-off delays and the MySQL isolation level, which do not change what is written.
- UsageTicks.StepKeepsInv: takes settling of batches as a step that empties some batched answers; the table itself is in `StatBatches`.
- NodeUsage.WriteNodeChart: does not model the outbound rows, which repeat the same totals by outbound; rows without a node never collide, as NULL keys do not in a unique index.
- HostBroadcast.WorkersAgreeWithThePublisher: one publishing worker, and messages that reach every worker; a publish that fails is only logged by the router, and several publishers have no common order.
- HostBroadcast.MessagesAreInStampOrder: publishing is a step machine over values, not a method of the class; update in place is in `HostCache`.
- HostRuns: the read caches, the KV snapshot and priority sorting; exceptions that end an operation half way.
- Rollback.Database.DowngradeUntil: does not model a downgrade that raises or the migration lock.
- LineCarry.CarriedPositions: takes the set of comment lines and the normal form of a line as given.
- NotificationSpool.Spool.Restore: several workers only leave the files of interrupted restores alone; claims that race are not modelled. Entries are distinct notifications.
- WebhookDelivery.Run.SendNotifications: does not model the returns when webhooks are off or the proxy is invalid, or an empty dict taken from the queue, which the code treats as no item.
- ShutdownBudget.Lifecycle.RunShutdownCallbacks: callbacks that block the event loop are not modelled.
- SQL text per dialect, node RPCs, NATS clients, files and fsync, HTTP routes, models, the command line and logging.
- The other readers and reports of scripts/upstream_inventory.py, `verify_written` and discovery of bundles.
