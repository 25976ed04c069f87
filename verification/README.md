# Verification of the open-interest collector

A Dafny model of the parts of the collector whose correctness spans many steps: the high-availability write
path, the per-minute pipeline, and the bounded fan-outs with the columnar wire formats. `dafny verify
dfyconfig.toml` checks everything. Nothing here executes the original program.

## What is modelled

**The durable write path.** Each node writes every batch to a file queue (`FileWal.dfy`), hands it to the store
through a gate that is open only on the leader (`WalBacked.dfy`), and replays its queue with a drainer
(`Drain.dfy`). Leadership is a lease: one Redis key with an expiry, acquired by SET NX and renewed by a
compare-and-PEXPIRE script (`Lease.dfy`, and as the loop is written, `LeaseLoop.dfy`). `WritePath.dfy` splits the
producers and the drainer of one node at their awaits and interleaves them; `HaSystem.dfy` puts any number of
nodes, the lease and the store's log of writes into one machine and states what every run keeps.
`Uninterrupted.dfy` shows that the sequential upsert, drain cycle and reap are runs of that machine, and
`Reachability.dfy` that these are runs of the whole system, one of which delivers a batch. `Causes.dfy` traces every
write and every deletion by the reaper back to the steps that allowed it, and `Cycle.dfy` says file by file what one
drain cycle does. Files are framed
with a bitwise CRC-32 (`Crc32.dfy`, over the generic shift register of `Register.dfy`; `Frame.dfy`), and their
names, with their decimal timestamps and lexicographic order, are real strings (`WalNames.dfy`).

**The per-minute pipeline.** The scheduler (`Scheduler.dfy`), the OHLC bar (`Ohlc.dfy`) and the map of bars in
progress (`Aggregator.dfy`), settlement events derived from the funding stream (`Settlement.dfy`), the price
fallback (`PriceFallback.dfy`), and the Bybit snapshot/delta merge (`BybitMerge.dfy`). Each incremental algorithm is
proved to have a declarative meaning over its whole input history.

**Fan-out and transpose.** `FanOut.dfy` is the history of a bounded fan-out; the batch endpoint (`RunBatch.dfy`) and
the funding sweep (`FundingSweep.dfy`) are loops over it with an arbitrary completion order. `Columns.dfy` is the
columnar encoding and its inverse.

Objects whose methods change fields are classes; their methods are proved against functions of the old state, and
the theorems are about those functions or about state machines built from them.

## Assumptions about the environment

- A finished WAL file name (millisecond, process id, counter) is never reused by the node (`HaSystem.Fresh`).
- Redis keeps a key until its expiry. A command whose sender gave up may still be executed, at any later time.
- Mutual exclusion assumes that while a flag is up less than `ttl` has passed since Redis executed the command it
  rests on (`Lease.Timely`); `Lease.PauseBreaksExclusion` shows that a process stopped for `ttl` breaks exclusion
  otherwise. Distinct node ids are needed only for the claims about renewals and the leaderless window.
- A disk may change a pending file at any time; such a file is counted as damaged and excluded by name. A read may
  fail for a reason other than the file's contents; such a file is excluded from what that one cycle delivers, and
  from nothing else.
- The store keeps one row per (instrument, bucket), last write wins; a refused write may have applied any of its rows.
- The batch codec is any pair of functions that round-trips, and printed decimals read back. Both can be had:
  `Codec.dfy` is such a codec (`HaSystem.FaithfulConfigExists`), and `Columns.PrintedReadsBack` such a printer.
- Decimals are integers in units of 10^-28, the finest scale of the original's decimals; their 96-bit range is not
  modelled, nothing being computed with them.

## Where the code and its documentation differ

- `canonical_quote` returns an unknown quote in its own case, although its comment says uppercased; the model follows
  the code (`PriceFallback.CanonicalQuote`).
- The header comment of the lease module describes the refresh as SET with XX plus a script; the code runs the script
  alone, and the model follows it.
- The runbook gives the TTL as the bound on failover. The bound proved is TTL plus the longest time without a tick,
  and `Lease.WindowCanExceedTtl` shows the extra term is needed.
- The scheduler's settle delay keeps only whole seconds; `Scheduler.NeverEarlyIffDelayed` says exactly when that matters.
- The reaper's comment takes sorted order for age; that holds for timestamps of one width
  (`FileWal.ReapIsExact`) and fails across widths (`FileWal.ReapMissesAcrossWidths`).

## Model

| member | source | states |
|---|---|---|
| HaSystem.WalConservation | crates/oi-storage/src/wal.rs:79-144 | in every state of every run of any number of nodes, with producers, drainer, crashes and quarantine interleaved, a finished append is pending with its contents, taken by the store, quarantined with its contents, or reaped, unless the disk damaged it |
| HaSystem.AckedOnlyAfterTaken | crates/oi-storage/src/wal.rs:364-376 | no file is acked, by producer or drainer, before the store took its whole batch from that node |
| HaSystem.OnlyHoldersWrite | crates/oi-storage/src/leader_gated.rs:53-62 | every write the store took passed its gate while its node owned the unexpired key |
| Causes.WritesPassedTheGate | crates/oi-storage/src/leader_gated.rs:53-62 | for everything the store ever took there is an earlier step of the run that checked the gate for it, with the flag of the writing node up and the unexpired key its own |
| HaSystem.LosslessFailover | crates/oi-storage/src/wal.rs:521-557 | when a cycle that began with the gate open returns Ok, every readable file pending at its start that no read of this cycle failed on is delivered, and the store holds under each of its keys the row that delivery wrote or a later one, wherever other nodes crashed |
| HaSystem.NotOlder | crates/oi-core/src/traits.rs:108-114 | the stored row under a key of a logged write comes from that write or a later one |
| HaSystem.FramesAreFaithful | crates/oi-storage/src/wal.rs:93-110 | the machine's abstract files are instantiated by real frames and any codec that round-trips |
| HaSystem.FaithfulConfigExists | crates/oi-storage/src/wal.rs:79-110 | there is a batch codec for which the machine's files are faithful, so the theorems about faithful configurations are not empty |
| HaSystem.NextKeepsLease | crates/oi-replication/src/failover.rs:121-184 | every step of the whole system keeps the lease invariant |
| WritePath.NodeNextKeeps | crates/oi-storage/src/wal.rs:358-377 | one step of any task of a node keeps conservation, delivered-before-acked and the drainer's promise |
| WritePath.RenameKeeps | crates/oi-storage/src/wal.rs:112-114 | the rename publishes a file that holds the whole batch and disturbs no other |
| WritePath.QuarantineKeeps | crates/oi-storage/src/wal.rs:559-566 | setting a file aside keeps its contents and no other file is lost to the rename |
| WritePath.ReapKeeps | crates/oi-storage/src/wal.rs:249-267 | reaping accounts for the file it deletes; which files it may delete is `WritePath.ReapsOnlyOverdue` |
| WritePath.ReapsOnlyOverdue | crates/oi-storage/src/wal.rs:246-258 | a step deletes for age only the next file of the listing, and only when its timestamp lies more than the maximum age before the clock of the scan |
| Causes.ReapedWasOverdue | crates/oi-storage/src/wal.rs:234-270 | in every run, every file ever reaped was listed by a scan of a drainer that had woken with its gate closed, and by the clock of that scan it was older than the maximum age |
| WritePath.FileLeavesOnlySo | crates/oi-storage/src/wal.rs:528-566 | a pending file leaves its name only by the ack of its own upsert or of the drainer after the store took it, by being set aside whole, or by being overdue for the reaper |
| WritePath.AckedFileRemoved | crates/oi-storage/src/wal.rs:135-144 | removing a file after delivery loses nothing, even one the drainer has listed or read |
| Uninterrupted.CycleSteps | crates/oi-storage/src/wal.rs:492-557 | a drain cycle run without interference is a sequence of drainer events of the machine, with the files and rows of the sequential cycle for every pattern of failures, and ends in the cycle's success exactly when the cycle returns Ok |
| Uninterrupted.ReapSteps | crates/oi-storage/src/wal.rs:234-270 | a reap of a follower run without interference is a sequence of drainer events of the machine that deletes exactly what the sequential reaper deletes, and ends in a failure exactly when that one returns an error |
| Uninterrupted.FollowerIdles | crates/oi-storage/src/wal.rs:496-515 | a follower without a maximum age wakes and goes back to sleep, touching nothing |
| Reachability.TaskIsRun | crates/oi-storage/src/wal.rs:492-557 | every such sequence is a run of the whole system, from any state with the node in it, that leaves the other nodes and the lease as they are |
| Reachability.SomeRunDelivers | crates/oi-storage/src/wal.rs:358-377 | from every initial state a timely run leads to a leader whose upsert is taken by the store and acked |
| Reachability.GateIsFlag | crates/oi-storage/src/leader_gated.rs:53-62 | an upsert gets past its gate, and the drainer drains, exactly when the flag of the node is up |
| Reachability.CrashCanStrike | crates/oi-replication/src/failover.rs:121-152 | a crash can strike any node of the system at any moment: its tasks and its flag are gone, its files, the key and the log are not |
| Uninterrupted.UpsertSteps | crates/oi-storage/src/wal.rs:358-377 | an upsert run without interference is a sequence of that upsert's events: append in its five stages, gate, store, ack, for every answer of the gate and the store |
| HaSystem.DeliveredIffRead | crates/oi-storage/src/wal.rs:529-537 | what a failed read costs, in any run and any queue: of the undamaged, undelivered files pending at its start with no upsert in flight, a finished cycle has delivered exactly those that no read of it failed on |
| Uninterrupted.MisreadCycleEndsWell | crates/oi-storage/src/wal.rs:529-537 | a run in which it happens: the cycle returns Ok and the file is set aside with its contents, undelivered |
| Lease.MutualExclusion | crates/oi-replication/src/failover.rs:121-184 | in every state of every timely run at most one flag is up and its process holds the unexpired key |
| Lease.FlagFallsIffGivenUp | crates/oi-replication/src/failover.rs:121-152 | in every run in which a leader is on time, its flag falls exactly where it crashes or a tick of its errs, however late all others are |
| Lease.LeaderKeepsLeading | crates/oi-replication/src/failover.rs:121-152 | so a leader on time that neither crashes nor errs leads in every later state and owns the unexpired key |
| Lease.RefreshKeepsLeading | crates/oi-replication/src/failover.rs:155-169 | after an answered tick a leader that owned the unexpired key leads on, with a lease of ttl from now, and any other is down with the key untouched |
| Lease.AnsweredTickOutcome | crates/oi-replication/src/failover.rs:155-184 | flag, key and time of grant after an answered tick, for leaders and followers, whoever owns the key |
| Lease.LeftoverTakesEffect | crates/oi-replication/src/failover.rs:140-151 | a command whose sender gave up does to the key what it would have done had the sender still waited |
| Lease.OnlyHolderRenews | crates/oi-replication/src/failover.rs:32-38 | with distinct ids, in every run, timely or not, a running lease changes only by its holder's renewal, orphaned commands included |
| Lease.AbandonedStays | crates/oi-replication/src/failover.rs:161-183 | once its holder is down or demoted nobody renews a key, the former holder included |
| Lease.GivingUpDemotes | crates/oi-replication/src/failover.rs:129-151 | a crash, or a demotion on an error, demotes the holder whatever its command does; the key is abandoned exactly when no refresh of its was left behind |
| Lease.DemotedStays | crates/oi-replication/src/failover.rs:129-151 | a demoted holder's key is renewed only by executing a refresh it left behind, each once |
| Lease.LeaderlessAtMostT | crates/oi-replication/src/failover.rs:121-184 | in every timely run, whoever crashes or errs and whatever commands are left behind, until somebody acquires the key the run is at most T past the expiry its last effective command gave it |
| Lease.BoundedLeaderlessWindow | crates/oi-replication/src/failover.rs:129-151 | after a leader crashes or demotes itself, commands still in flight included, every SET NX fails until the key expires, each refresh left behind puts that off at most once and by at most ttl, and one succeeds within ttl + T of the last effective command |
| Lease.WindowCanExceedTtl | docs/replication.md:125-128 | a run that meets every hypothesis of the bound and attains it: the key is acquired ttl + T after the last effective command, so ttl alone is not a bound |
| Lease.PauseBreaksExclusion | crates/oi-replication/src/failover.rs:121-151 | a run with two flags up when a leader stores nothing for exactly ttl, so the timing assumption is tight |
| LeaseLoop.Supervisor.Iterate | crates/oi-replication/src/failover.rs:121-152 | one round of the loop takes exactly the machine's steps for an answered, lost, or executed-but-unanswered command; answered, it leaves a leader leading iff it owned the live key and makes a follower leader iff there was none, with a lease of ttl from now |
| LeaseLoop.Supervisor.Tick | crates/oi-replication/src/failover.rs:155-184 | refresh when leading, acquire otherwise, and the key each leaves |
| LeaseLoop.Server.RefreshIfOwned | crates/oi-replication/src/failover.rs:32-38 | the script extends the lease only of its owner and says so |
| WalBacked.UpsertSnapshots | crates/oi-storage/src/wal.rs:358-377 | directory, store and result after an upsert for every outcome: only a taken write gives up its file |
| WalBacked.GatedUpsert | crates/oi-storage/src/leader_gated.rs:53-62 | a follower's write is refused without touching the store |
| Drain.ExactlyOnceEffect | crates/oi-storage/src/wal.rs:521-557 | after any run of cycles with refused, half-applied and unacked writes, an emptied queue leaves the store that writing each readable file once gives, in the order they were taken, files arriving at any time under any unused name |
| Drain.SortedIffNoneLate | crates/oi-storage/src/wal.rs:167-170 | files are taken in the order of their names exactly when no readable one arrives under a name before one already taken |
| Drain.ExactlyOnceSorted | crates/oi-storage/src/wal.rs:521-557 | then the store is what writing each readable file once in sorted order gives |
| Drain.RunKeepsReplayed | crates/oi-storage/src/wal.rs:521-557 | at every point of such a run, replaying what is queued gives what writing each readable file once gives, those taken in the order they were taken, then the others in the order of names |
| Drain.LateArrivalOverwrites | crates/oi-storage/src/wal.rs:87 | a run in which a file arrives late and is written after one its name precedes |
| Drain.CycleKeepsReplayed | crates/oi-storage/src/wal.rs:521-557 | a cycle does not change the replayed store, and an Ok cycle leaves nothing readable queued |
| Cycle.CycleDoes | crates/oi-storage/src/wal.rs:521-557 | a cycle is Ok exactly when no readable file is denied; up to the first that is, oldest first, every file is delivered and removed or set aside whole and each batch written once; that file has written what it was allowed to, it and the younger ones stay, and no other file is touched |
| Drain.DrainOnce | crates/oi-storage/src/wal.rs:521-557 | the loop computes the cycle: oldest first, quarantine what cannot be read, stop at the first failure |
| Drain.DrainOne | crates/oi-storage/src/wal.rs:528-551 | read, upsert, ack of one file, with each failure's effect |
| Store.LastWriteWins | crates/oi-core/src/traits.rs:108-114 | one row per (instrument, minute): after an upsert it is the last of the batch's rows for that place, and where the batch has none, what was there before |
| Store.PlaceIsInstrumentAndMinute | migrations/single/001_schema.sql:68 | two rows compete for one place exactly when they agree in instrument and minute |
| Store.PartIsChoice | crates/oi-core/src/traits.rs:108-114 | a refused write may have applied any choice of its rows, in their order |
| Store.PartialThenFull | crates/oi-core/src/traits.rs:108-114 | a full write hides an earlier partial write of the same batch |
| FileWal.FileWal.Append | crates/oi-storage/src/wal.rs:79-132 | a finished append is the framed payload under its name; a failed one changes no pending file at any of its stages |
| FileWal.FileWal.Ack | crates/oi-storage/src/wal.rs:135-144 | the file is gone, a missing one is no error |
| FileWal.FileWal.Pending | crates/oi-storage/src/wal.rs:147-171 | exactly the pending names, each once, in lexicographic order, from any scan order |
| FileWal.FileWal.OldestPendingAge | crates/oi-storage/src/wal.rs:183-197 | the age of the first listed file, in 64-bit milliseconds |
| FileWal.FileWal.ReapOlderThan | crates/oi-storage/src/wal.rs:234-270 | the files removed and the result, stopping at a young file or an error |
| FileWal.FileWal.ReapListed | crates/oi-storage/src/wal.rs:240-269 | what the loop has removed, and what an error kept it from removing |
| FileWal.FileWal.ReadFile | crates/oi-storage/src/wal.rs:279-309 | a batch is returned exactly when the file is there and is an intact frame of it, or a legacy file that decodes to it; a checksum error exactly when it starts like a frame and is none |
| FileWal.FileWal.Quarantine | crates/oi-storage/src/wal.rs:559-566 | the file moves aside with its contents, or stays when the rename fails |
| FileWal.ReapedAt | crates/oi-storage/src/wal.rs:241-267 | a listed file is reaped iff it is old and no young file precedes it |
| FileWal.ReapIsExact | crates/oi-storage/src/wal.rs:249-253 | with timestamps of one width the early break misses nothing: exactly the old files go |
| FileWal.ReapMissesAcrossWidths | crates/oi-storage/src/wal.rs:249-253 | with two widths it can miss an old file |
| FileWal.OldestAgeIsMaximal | crates/oi-storage/src/wal.rs:183-197 | the gauge is the greatest age in the queue, and empty only for an empty queue |
| WalNames.ParseTsOfFileName | crates/oi-storage/src/wal.rs:315-318 | parsing the prefix inverts printing it |
| WalNames.DecimalIffDigits | crates/oi-storage/src/wal.rs:315-318 | a string is a number iff all its characters are digits |
| WalNames.NameSpelledOut | crates/oi-storage/src/wal.rs:87 | a name spelled out: milliseconds in decimal, process id and counter in hexadecimal |
| WalNames.ChronologicalOrder | crates/oi-storage/src/wal.rs:167-170 | among timestamps of one width, sorting first means not later |
| WalNames.FileNameInjective | crates/oi-storage/src/wal.rs:87 | different (millisecond, pid, counter) give different names |
| WalNames.FileNameIsPending | crates/oi-storage/src/wal.rs:154-165 | a name made by append is one the drainer picks up |
| WalNames.OtherNamesNotPending | crates/oi-storage/src/wal.rs:89-91 | hidden and quarantined names are never picked up |
| WalNames.SortLists | crates/oi-storage/src/wal.rs:169 | sorting a scan gives the one ordered listing of its names |
| Frame.RoundTrip | crates/oi-storage/src/wal.rs:284-298 | reading back a frame hands the decoder the payload |
| Frame.FrameOfDigits | crates/oi-storage/src/wal.rs:93-110 | a whole file byte for byte: magic, checksum with its highest byte first, payload |
| Frame.ReadMeans | crates/oi-storage/src/wal.rs:279-309 | what reading returns is what the file holds, and each error says what the file is not |
| Frame.ReadsWhole | crates/oi-storage/src/wal.rs:284-298 | a framed file is decoded iff its stored checksum is its payload's |
| Frame.PayloadDamageRejected | crates/oi-storage/src/wal.rs:288-296 | changing any window of up to four adjacent payload bytes is reported as a checksum mismatch |
| Frame.StoredCrcDamageRejected | crates/oi-storage/src/wal.rs:288-296 | so is changing the stored checksum alone |
| Crc32.BurstChangesCrc | crates/oi-storage/src/wal.rs:94 | CRC-32 (section 8 of RFC 1952) differs after any burst within 32 bits, for every payload |
| Crc32.CheckValue | crates/oi-storage/src/wal.rs:94 | the checksum of "123456789" is CBF43926 |
| Register.BurstShows | crates/oi-storage/src/wal.rs:94 | any lawful shift register tells bursts apart |
| Ohlc.OiBar.ObserveSample | crates/oi-core/src/snapshot.rs:183-220 | the fields after one more sample, or unchanged with an error |
| Ohlc.OiBar.FoldColumn | crates/oi-core/src/snapshot.rs:228-254 | a nullable column after one more observation |
| Ohlc.FoldMeans | crates/oi-core/src/snapshot.rs:152-254 | a bar is, column by column, first, greatest, least and last of the values its samples carried, absent columns absent together, count saturated |
| Ohlc.MeaningIsUnique | crates/oi-core/src/snapshot.rs:103-143 | no other bar says the same about the samples |
| Ohlc.BarBounds | crates/oi-core/src/snapshot.rs:183-220 | low is at most open and close, high at least |
| Aggregator.SamplesConserved | crates/oi-collector/src/aggregator.rs:43-124 | under any interleaving of observes and removals, the samples accepted are, in order, those of the closed bars and then of the open bar, the others had the minute and the receive time of the only sample of their bar, none is lost, and every bar is the fold of its samples |
| Aggregator.SkipsOnlyDuplicates | crates/oi-collector/src/aggregator.rs:60-63 | in every run a sample is skipped iff the samples since the last removal or change of minute are exactly one, of its minute and receive time |
| Aggregator.ObservesCounted | crates/oi-collector/src/aggregator.rs:43-124 | short of saturation, observe calls add up to the bars' sample counts plus drops |
| Aggregator.ObserveKeepsOk | crates/oi-collector/src/aggregator.rs:64-66 | in a reachable state the fold cannot fail, and bars stay folds |
| Aggregator.OverlappedFlushTakesLaterBar | crates/oi-collector/src/aggregator.rs:95-108 | a flush that overlaps observes is handed a bar past its minute exactly when the last sample observed between collection and removal belongs to a later minute |
| Aggregator.BarIsOfLastSeen | crates/oi-collector/src/aggregator.rs:43-79 | after any interleaving the bar in progress is of the minute of the last sample seen |
| Aggregator.OverlapHappens | crates/oi-collector/src/aggregator.rs:95-108 | a run in which it happens, and the bar collected is replaced |
| Aggregator.OiAggregator.ObserveSample | crates/oi-collector/src/aggregator.rs:43-79 | create, drop a repeat, fold, or replace; the bar returned is the fold of exactly the samples then open |
| Aggregator.OiAggregator.FlushThrough | crates/oi-collector/src/aggregator.rs:93-110 | without interference, exactly the bars of that minute and earlier are returned, each once, the rest untouched |
| Aggregator.OiAggregator.FlushAll | crates/oi-collector/src/aggregator.rs:115-124 | every bar is returned once and none is left |
| Settlement.FundingCursor.Derive | crates/oi-collector/src/runner.rs:586-605 | a batch's events extend those of the whole history, so batch boundaries do not matter |
| Settlement.EmitsRollovers | crates/oi-collector/src/runner.rs:586-605 | per instrument, the events pay, one by one, the predictions whose successor names a later settlement: its moment, its rate |
| Settlement.SettlementsArePaidRuns | crates/oi-collector/src/runner.rs:586-605 | for a stream that never moves back: one event per run of equal settlements but the last, rising, each with the last rate of its run |
| Settlement.MovingBackRepeats | crates/oi-collector/src/runner.rs:586-605 | a stream that moves back and forth emits two events for the same moment |
| Settlement.SettledTwiceIff | crates/oi-collector/src/runner.rs:586-605 | an instrument's events settle a moment twice exactly when two predictions naming it are each followed by a later one |
| Settlement.NeverMovingBackSettlesOnce | crates/oi-collector/src/runner.rs:586-605 | a stream that never moves back settles no moment twice |
| Scheduler.MinuteScheduler.Next | crates/oi-collector/src/scheduler.rs:70-91 | the tick, when it is late, and a sleep of whole milliseconds that ends within the millisecond before the bucket is due and never after |
| Scheduler.SleepIsWhole | crates/oi-collector/src/scheduler.rs:74-75 | the sleep asked for is the wait less than a millisecond short, never longer |
| Scheduler.ExactCallsHappen | crates/oi-collector/src/scheduler.rs:70-91 | calls that return the planned bucket the moment it is due, or at once when late, are runs of the scheduler, so the laws about lag are about something |
| Scheduler.BucketsProgress | crates/oi-collector/src/scheduler.rs:99-116 | an unbroken one-minute progression whatever the calls cost |
| Scheduler.BucketsAligned | crates/oi-collector/src/scheduler.rs:118-122 | every bucket is the start of a minute |
| Scheduler.NeverEarlyIffDelayed | crates/oi-collector/src/scheduler.rs:58-63 | no bucket is ever returned before its minute closed iff the delay is a second or more |
| Scheduler.LagClosedForm | crates/oi-collector/src/scheduler.rs:70-116 | from the second call lag is the larger of initial lag plus all overruns and the largest suffix sum of overruns |
| Scheduler.CatchesUp | crates/oi-collector/src/scheduler.rs:25-28 | lag is negative after max(lag, 0) / d + 1 calls once work takes at most a minute less d |
| PriceFallback.InMemoryPriceProvider.PriceUsdWithFallback | crates/oi-collector/src/price_provider.rs:107-128 | native if fresh, else the first same-quote donor, else the first donor, else nothing |
| PriceFallback.InMemoryPriceProvider.ScanPass | crates/oi-collector/src/price_provider.rs:134-170 | the first donor by exchange order and then registration order, or proof that there is none |
| PriceFallback.InMemoryPriceProvider.RegisterInstrument | crates/oi-collector/src/price_provider.rs:82-98 | appended once, never duplicated, the first quote kept |
| PriceFallback.InMemoryPriceProvider.Ingest | crates/oi-collector/src/price_provider.rs:73-77 | each instrument has its last quote, others are unchanged |
| PriceFallback.ResolvesUniquely | crates/oi-collector/src/price_provider.rs:107-128 | the answer is determined, and is None exactly when neither the instrument nor any other of its base has a fresh price |
| PriceFallback.QuoteMatchIsTrue | crates/oi-collector/src/price_provider.rs:155-167 | a borrowed price is flagged as a match iff its donor's canonical quote is the one asked for |
| PriceFallback.FreshMeans | crates/oi-collector/src/price_provider.rs:172-180 | a price is usable iff it is at most the tolerance older or newer than the moment asked for |
| PriceFallback.SameQuoteIff | crates/oi-collector/src/price_provider.rs:201-210 | two quotes count as one iff they are equal or both are dollars: seven names in any case, or the family name |
| PriceFallback.SameBaseIff | crates/oi-collector/src/price_provider.rs:186-191 | two bases count as one iff they are equal or both name Bitcoin |
| FanOut.DoneTracks | crates/oi-api/src/rest.rs:703-728 | a fan-out with nothing left in flight launched and finished every item once, within its bound |
| FanOut.FoldPermutes | crates/oi-collector/src/funding_sweep.rs:174-207 | a total over results does not depend on the order of completion |
| FanOut.Prime | crates/oi-api/src/rest.rs:702-706 | the in-flight set is filled up to the cap |
| RunBatch.Run | crates/oi-api/src/rest.rs:664-732 | for every completion order and outcome entry i names item i and holds its finalized rows or its error; each query is launched and finished once, at most 16 at a time, every slot is filled, and the loop ends |
| FundingSweep.SweepOnce | crates/oi-collector/src/funding_sweep.rs:125-217 | the chunks concatenate to the fetched events in completion order, all but the last have at least 500; failures are the instruments that failed plus the writes refused, auth failures those turned away; each instrument is attempted once within the bound |
| FundingSweep.AsksUnlessSettledLately | crates/oi-collector/src/funding_sweep.rs:136-162 | a venue is left alone iff a settlement was stored under fifty minutes ago; otherwise it is asked from the stored settlement on, and its answer is the outcome |
| FundingSweep.Handle | crates/oi-collector/src/funding_sweep.rs:179-207 | one result keeps the account of events, failures and chunks |
| FundingSweep.TotalsOverAll | crates/oi-collector/src/funding_sweep.rs:174-207 | what a sweep adds up to counts every instrument once, in whatever order they finish |
| Columns.FromSnapshots | crates/oi-api/src/rest.rs:284-334 | every column holds its field of every row, and a group is there iff some row has a value in it |
| Columns.Detect | crates/oi-api/src/rest.rs:295-303 | the first pass, early break included, finds exactly the groups with a value |
| Columns.DecodeInverts | crates/oi-api/src/rest.rs:284-334 | reading the columns gives back every row's millisecond time and values |
| Columns.MillisCuts | crates/oi-api/src/rest.rs:319 | a time loses less than a millisecond, never away from zero |
| Columns.FromBars | crates/oi-api/src/rest.rs:414-432 | the same for funding bars, column by column |
| Columns.FundingDecodeInverts | crates/oi-api/src/rest.rs:414-432 | reading the funding columns gives back every row |
| BybitMerge.SymbolState.Merge | crates/oi-exchanges/src/bybit/stream.rs:40-72 | each field is its last present value, and what is emitted over the whole history is the open interest with adjacent repeats removed |
| BybitMerge.SqueezedMeaning | crates/oi-exchanges/src/bybit/stream.rs:66-71 | removing repeats merges each run of equal neighbours into one, in order |
| BybitMerge.SnapshotsAreDeltas | crates/oi-exchanges/src/bybit/stream.rs:46-64 | treating every snapshot frame as a delta changes neither state nor emissions |

## Left out

- HTTP, WebSocket, gRPC, the Redis and ClickHouse clients, TLS, metrics, tracing, configuration: plumbing over libraries not modelled here.
- Exchange adapters other than the Bybit merge, and reading decimals out of JSON: one-branch field picking.
- MessagePack: the codec is any pair of functions that round-trips, and the one given is not MessagePack; nothing is claimed for a file whose magic bytes are damaged, which takes the legacy branch.
- Power loss: the directory is not fsynced after the rename; only process crashes are modelled.
- Redis losing a key before its expiry, and a write in flight when leadership is lost after its gate check: no single writer at the store is claimed.
- HaSystem.LosslessFailover: a file that a read of the same cycle failed on for a reason other than its contents is excepted, and rightly (`HaSystem.DeliveredIffRead`); it stays conserved.
- Drain.ExactlyOnceEffect: cycles do not overlap direct writes to the store; a transient read failure is not among its faults, since a file set aside by one leaves the replay.
- Scheduler.LagClosedForm: with exact sleeps; a sleep cut to whole milliseconds ends up to a millisecond early.
- Aggregator.OiAggregator.FlushThrough: bars are values in the map, not objects updated in place through a guard; the map's sharding is not modelled.
- WritePath.NodeNextKeeps: a file is read, damaged, renamed or removed in one step; the soft cap on the queue's length only logs and is left out.
- RunBatch.Run: panics of a query are not modelled; the limit on the number of items is checked before the fan-out and is left out.
- FundingSweep.SweepOnce: the pause between spawns and the back-off of a whole venue after many auth failures are timing policy around the sweep; 64-bit counters do not wrap.
- Prices: funding and instrument metadata pass through the gate without a file and are left out, as are the read paths.
- Monotone `latest` in the Redis cache, authentication, path checks, unit conversion, subscription chunking, SQL splitting: they would only add easy members.
