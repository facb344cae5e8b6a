# Verification of the recorder's core

A Dafny model of the native recorder of fk-prof (`recorder/src/main/cpp`), with proofs of what its
concurrent and binary parts promise. `dafny verify dfyconfig.toml` checks everything.

What is modelled, and how:

- **The hash map with migration** (`concurrent_map.h`), twice. `Chains`, `HashTable`, `Migration` and
  `ConcurrentMap` are the code of one thread on arrays and counters; put, get and remove refine a finite
  map through any number of migrations and overflow restarts, and put terminates. `ChainProtocol`,
  `MigrationWorkers`, `MigrationCells` and `ValueRace` are state machines over single atomic accesses: any
  number of insertions and lookups in one table; any number of workers in one migration; what the workers,
  concurrent writers and restarts do to the cells; and all who exchange the value of one cell.
  `ChainOutcomes` says how the insertions end, `ChainSolo` that one alone does what the sequential code
  does. `Pow2` and `Arithmetic` are the size arithmetic, `DeepUpdate` a table that refuses an update.
- **The epoch collector** (`EpochGC`): its object, and any number of threads that attach, look tables up,
  pass locked or signal-handler safepoints and detach. The signal handler's is split into load, decrement
  and store, and may come between the deletions and writes that begin an epoch under the mutex. Publishing
  a table is a load, a store and a scheduling, and any table may be published; the garbage is given by the
  numbers of the replacements.
- **The sample ring** (`Ring`, `RingProtocol`, `CircularQueue`): any number of pushes and one consumer,
  one access at a time, and the queue object on its arrays.
- **Bucket references** (`ThreadBuckets`): which places hold a reference to a thread's bucket, from the
  map through the ring to the consumer. `BucketEpochs` runs this machine and the collector's together, a
  bucket being one attached thread.
- **The profile writer** (`Varint`, `Adler`, `ProfileFormat`, `ProfileWriter`): varints as in the Protocol
  Buffers Encoding, Adler-32 as in section 8.2 of RFC 1950, the framing, and the buffered writer.
- **The log writer** (`LineTable`, `LogFormat`, `LogWriter`): line lookup, the event stream and its
  decoding, and when method names are written.
- **The profiler's reconfiguration** (`Profiler`): path strings shared by two configurations, and objects
  rebuilt when a setting changes.

State machines keep history fields, named as such where they are declared; no step depends on one. Each
has an invariant, a lemma that every step keeps it, and theorems about every state of every run (`Runs`).

Assumptions, all at the places where they are used:

- Atomic accesses are sequentially consistent. Hashes are abstract integers, never -1, and distinct keys
  have distinct hashes; masking by a power of two less one is reduction modulo it. Values put are neither
  null nor the Move marker.
- At most one insertion per hash is in flight, as each key is inserted by the thread it belongs to.
- Its owner uses a thread's map cell for one operation at a time; the profiling signal is masked in the
  others. A thread that is in a locked safepoint or begins an epoch is therefore not in an unlocked one.
- Tables are looked up by attached threads only (`EpochGC`). A bucket is attached before its put, and a
  signal finds it after that; a lookup by a thread that never had a bucket is not protected.
- No put races with a migration or with another put of its key (`ThreadBuckets`); `ValueRace` says what it
  reports if one does.
- Line number tables have strictly increasing start locations.

Where the code does something other than one might expect:

- `EpochGC.DecrementCanBeLost`: an unlocked safepoint between the increment of the epoch and the store to
  `remaining` is overwritten. From then on nothing is deleted any more (`NothingFreedAfterLoss`).
- `MigrationWorkers.TwoCanBeLast`: a worker held up between the test of the done flag and its entry takes
  the last-worker branch again; `PassesCounted` gives the exact number of times. Without an overflow it
  publishes the table again. After one it follows a null pointer if the first has restarted by then
  (`LateWorkerCanFault`). `PublishedOnce` and `NobodyFaults` give the condition under which neither happens:
  no worker enters after the flag is set.
- `EpochGC.RepublishedIsFreed`: a second publication of a table schedules that table, which is then deleted
  while it is in use. What publications have to satisfy is `WellPublished`: `WellPublishedStep` says what
  that asks of each, `SafeExactlyIfWellPublished` that it is exact, `NothingInUseIsFreed` and `FreedOnce`
  what it gives. It holds if each migration is published once (`PublishedInTurn`), as by
  `MigrationWorkers.PublishedOnce`.
- `BucketEpochs.SecondPutKeepsGarbage`: a bucket that put finds in the map is released and never detached.
  Its thread is awaited for ever, and no table is deleted that is scheduled after that
  (`NothingFreedAfterDisplacement`). `AttachedExactly` gives the condition: every attached thread can still be
  detached exactly if no put ever found a bucket.
- `RingProtocol.EmptyRingCanRefuse`: a push that is slow to look refuses an item though there is room;
  `RefusedExactly` says when. `RingProtocol.FullRingCanBeOverrun`: one that is held up for a whole turn of the
  ring claims a slot of a full one, which then looks empty. What is proved of the contents of the ring is
  for runs in which that has not happened; `OverfullExactly` and `OverrunNeedsATurn` say what they are.
- `ValueRaces.PutCanReportMove` and `PutCanReportLiveValue`: a put whose exchange fails reports what it
  found, which may be Move or a value still in the map; `TrueExactlyIfUnchanged` says when it does not.
- `ThreadBuckets.SlotCanDangle`: the slot being popped points to a deleted bucket for a moment;
  `SlotDanglesOnlyWhilePopped` says that nothing else ever does.
- `ThreadBuckets.DroppedIsNeverDeleted`: a sample dropped by a full queue keeps its bucket for ever.
- `ChainWaits.WaitsUseUpRounds`: waiting for a marker costs an insertion one of its nine rounds, so that it
  can overflow on a short chain with room. `EndsForAReason` counts the rounds, and `OutOfRoundsMeansLong` says
  that without a wait the chain is as long as that.
- `DeepUpdates.TenthUpdateOverflows`: an update of a hash in the tenth bucket of its chain reports
  overflow, because an update looks at nine; `HashTable.InsertOrUpdate` gives the accepted hashes exactly.
- `ProfileWriters.LargeEntriesWrap`: entries of 1.5e9 bytes can make the 32-bit size arithmetic wrap, and are
  then written past the buffer. `RoomIffNoWrap` is exact for each record; no profile with smaller messages
  than about a third of 2^32 is affected (`SmallProfileWritable`).
- `ProfileWriters.HeaderAfterEntry`: the class takes a header after an entry; in the case given here the
  result cannot be read.

## Model

| member | source | states |
|---|---|---|
| Pow2.NearestPow2 | recorder/src/main/cpp/concurrent_map.h:47-55 | for every 32-bit int: the least power of two not below x from 1 to 2^30, 0 for what is not positive, and the wrapped sum above 2^30 |
| Pow2.LeastPow2IsLeast | recorder/src/main/cpp/concurrent_map.h:47-55 | the result is not above any power of two that is at least x |
| Pow2.LeastPow2IsPower | recorder/src/main/cpp/concurrent_map.h:47-55 | the result is a power of two, at least x and below 2x |
| Pow2.Smear | recorder/src/main/cpp/concurrent_map.h:48-53 | one shift-or step doubles the run of ones below the top bit |
| Pow2.SmearStep | recorder/src/main/cpp/concurrent_map.h:49-53 | the same step on an int of either sign |
| Pow2.AllOnes | recorder/src/main/cpp/concurrent_map.h:53-54 | a number whose bits below len are all ones is one less than 2^len |
| Chains.StepIsMasked | recorder/src/main/cpp/concurrent_map.h:267 | adding an offset below the neighbourhood under the mask is addition modulo the size |
| HashTables.HomeIsMasked | recorder/src/main/cpp/concurrent_map.h:277 | the mask on a hash in two's complement is the remainder modulo the size, also for negative hashes |
| Pow2.MaskIsModulo | recorder/src/main/cpp/concurrent_map.h:247 | the bits under the mask of a power of two less one are the remainder |
| HashTables.BudgetIsThreeQuarters | recorder/src/main/cpp/concurrent_map.h:124 | the budget of a table is exactly three quarters of its size |
| Chains.ExtendLinks | recorder/src/main/cpp/concurrent_map.h:336-340 | linking a fresh bucket behind a tail keeps links acyclic and predecessors unique |
| Chains.ExtendKeeps | recorder/src/main/cpp/concurrent_map.h:336-340 | after an allocation behind a tail at most 8 links from home every hash is still within ten buckets of its home |
| Chains.ReachesKept | recorder/src/main/cpp/concurrent_map.h:245-268 | growth of other chains never lengthens a route |
| Chains.RoutesClimb | recorder/src/main/cpp/concurrent_map.h:245-268 | along a route the allocation order grows by at least one per link, so a walk ends |
| HashTables.HashTable.constructor | recorder/src/main/cpp/concurrent_map.h:122-131 | a new table has fresh buckets only, as many as the least power of two that is at least 32 and the asked size, with three quarters as budget |
| HashTables.HashTable.Find | recorder/src/main/cpp/concurrent_map.h:245-269 | returns the bucket of the hash if it is in the table, examining ten buckets at most, and nothing otherwise; terminates |
| HashTables.HashTable.Store | recorder/src/main/cpp/concurrent_map.h:298-302 | a write to a value leaves chains and budget alone |
| HashTables.HashTable.Walk | recorder/src/main/cpp/concurrent_map.h:282-313 | ends at the bucket of the hash exactly when that is among the first nine of its chain; otherwise at the one tail of the chain, or too far out exactly when the chain is longer |
| HashTables.HashTable.FirstEmpty | recorder/src/main/cpp/concurrent_map.h:320-324 | finds the nearest unallocated bucket of the 16 behind a tail, all nearer ones being allocated, or reports that there is none |
| HashTables.RoomWithinSixteen | recorder/src/main/cpp/concurrent_map.h:320-324 | there is no room behind a tail exactly when it and the next fifteen buckets, cyclically, are allocated |
| HashTables.HashTable.Extend | recorder/src/main/cpp/concurrent_map.h:311-367 | overflows exactly when the neighbourhood is full or the budget used up, and then leaves the table as it was; asks for help exactly when there is room but the cell was given up, and then has claimed it; no Move is overwritten |
| HashTables.HashTable.Claim | recorder/src/main/cpp/concurrent_map.h:336-361 | links the bucket, and inserts the value unless the cell was given up to a migration |
| HashTables.HashTable.InsertOrUpdate | recorder/src/main/cpp/concurrent_map.h:276-368 | overflows exactly when the table does not accept the hash, and then leaves it exactly as it was; asks for help exactly when it accepts the hash but the cell it leads to holds Move; otherwise the new table is given bucket by bucket, the map is updated and the old value returned; no Move is overwritten |
| HashTables.HashTable.Update | recorder/src/main/cpp/concurrent_map.h:289-305 | overwrites the value of a present hash and returns the old one, or asks for help exactly if it is Move |
| DeepUpdates.TenthUpdateOverflows | recorder/src/main/cpp/concurrent_map.h:282-290 | ten insertions succeed and updating the tenth key then overflows |
| HashTables.WithValueSound | recorder/src/main/cpp/concurrent_map.h:295-305 | writing a value changes the map at one key only |
| HashTables.ClaimedSound | recorder/src/main/cpp/concurrent_map.h:336-345 | claiming a bucket without a value leaves the map unchanged |
| Migrations.SpreadEventually | recorder/src/main/cpp/concurrent_map.h:603-622 | for every finite set of keys there is a size from which on no two of them share a home and all fit the budget |
| Migrations.RoomyHome | recorder/src/main/cpp/concurrent_map.h:452-473 | in a table of such a size that is being filled, the home of every key still to come is free |
| Migrations.Place | recorder/src/main/cpp/concurrent_map.h:514-521 | re-inserting a moved entry overflows exactly when the destination does not accept it, and then changes nothing, or adds exactly it; it never overflows in a roomy table |
| Migrations.MigrateCell | recorder/src/main/cpp/concurrent_map.h:484-529 | source and destination together keep the map; it overflows exactly when the cell is live and not accepted, which restores the cell, otherwise the cell becomes Move |
| Migrations.MigrateRange | recorder/src/main/cpp/concurrent_map.h:480-531 | the same for a chunk, and no cell outside it changes; without overflow every cell of the chunk is Move, with one some live cell is not accepted |
| Migrations.SkipDrained | recorder/src/main/cpp/concurrent_map.h:407-433 | emptied sources no longer count towards the map |
| Migrations.Reassemble | recorder/src/main/cpp/concurrent_map.h:407-433 | replacing what one source holds changes the union at that source only |
| Migrations.AppendMap | recorder/src/main/cpp/concurrent_map.h:457-470 | the old destination as an extra source keeps the union |
| Migrations.Migration.constructor | recorder/src/main/cpp/concurrent_map.h:389-390 | the units to do are those of all sources |
| Migrations.Migration.MigrateSource | recorder/src/main/cpp/concurrent_map.h:410-432 | one source drained chunk by chunk, with the unit counter kept exact |
| Migrations.Migration.RunSource | recorder/src/main/cpp/concurrent_map.h:407-433 | after each source the rest of the sources and the destination hold the map |
| Migrations.Migration.Run | recorder/src/main/cpp/concurrent_map.h:400-450 | a lone worker ends with all sources Move and the destination equal to the map, or with an overflow and nothing lost; it overflows exactly if a live entry is left that the destination does not accept, and never for lack of budget when the budget of the destination is at least the size of the map |
| Migrations.Lacking | recorder/src/main/cpp/concurrent_map.h:549-572 | a destination that lacks an entry of the map has budget left if it was made for the map |
| ConcurrentMaps.ConcurrentMap.constructor | recorder/src/main/cpp/concurrent_map.h:594-597 | the map is empty |
| ConcurrentMaps.ConcurrentMap.Get | recorder/src/main/cpp/concurrent_map.h:625-638 | returns what the finite map holds |
| ConcurrentMaps.ConcurrentMap.Remove | recorder/src/main/cpp/concurrent_map.h:640-662 | removes the key and returns its old value |
| ConcurrentMaps.ConcurrentMap.TargetSize | recorder/src/main/cpp/concurrent_map.h:549-572 | doubles, or takes the least power of two from 32 on that is at least twice the entries estimated by the sample; gives up exactly when the sample meets a Move; for tables of at most 256 buckets all entries and one more fit the new budget |
| ConcurrentMaps.EstimateIsExact | recorder/src/main/cpp/concurrent_map.h:568 | the quotient of the estimate leaves no remainder |
| ConcurrentMaps.ConcurrentMap.Put | recorder/src/main/cpp/concurrent_map.h:603-622 | updates the finite map and returns the old value, through any number of migrations and overflow restarts; terminates; migrates exactly when the table does not accept the hash, first to a sampled size, then to twice the last one, times two for each restart |
| ConcurrentMaps.ConcurrentMap.Migrate | recorder/src/main/cpp/concurrent_map.h:452-473 | migrates with restarts until nothing overflows; the map is unchanged and exactly the live buckets are allocated |
| ConcurrentMaps.StartMigration | recorder/src/main/cpp/concurrent_map.h:574-591 | the first job has the current table as its only source |
| ConcurrentMaps.RestartMigration | recorder/src/main/cpp/concurrent_map.h:457-473 | the next job has the old destination as one more source and twice its size |
| ConcurrentMaps.LiveCountExact | recorder/src/main/cpp/concurrent_map.h:556-567 | a sample that covers the table counts exactly the entries of the map |
| ChainProtocol.ChainsStayWhole | recorder/src/main/cpp/concurrent_map.h:276-368 | for any interleaving of insertions of distinct hashes: no hash allocated twice, one predecessor each, links along allocation order, every published hash within ten buckets, and the counter plus allocated buckets plus reservations constant, with allocation never above three quarters |
| ChainProtocol.PendingIsOwned | recorder/src/main/cpp/concurrent_map.h:312-340 | an allocated hash that is not reachable yet is behind an Extend marker held by its own insertion alone |
| ChainProtocol.QuiescentIsWhole | recorder/src/main/cpp/concurrent_map.h:276-368 | when no insertion is in flight no marker is left, all hashes are reachable and the counter is exact |
| ChainProtocol.LookupsFind | recorder/src/main/cpp/concurrent_map.h:245-269 | a lookup of a hash published before it began finds it within ten buckets; what any lookup finds is the bucket of its hash; every lookup is bounded by the number of allocations |
| ChainProtocol.AccountedStep | recorder/src/main/cpp/concurrent_map.h:324-345 | each access keeps counter + allocated + reservations constant, while the counter may be negative |
| ChainProtocol.OwnHashUnseen | recorder/src/main/cpp/concurrent_map.h:347-361 | the search behind a tail never meets its own hash, so the return there never leaves a marker behind |
| ChainOutcomes.EndsForAReason | recorder/src/main/cpp/concurrent_map.h:276-368 | an insertion ends at the bucket of its hash, with its hash published, behind a tail with all 16 buckets allocated or with a counter that was not above 0, or after nine rounds, each a link followed or a marker waited for |
| ChainOutcomes.OutOfRoundsMeansLong | recorder/src/main/cpp/concurrent_map.h:284-288 | one that ends after nine rounds and waited for no marker has met a chain of more than nine buckets |
| ChainWaits.WaitsUseUpRounds | recorder/src/main/cpp/concurrent_map.h:284-317 | a run in which an insertion gives up on a chain of six buckets that would take its hash: it has used up its rounds on waiting |
| ChainOutcomes.InsertionsCanGoOn | recorder/src/main/cpp/concurrent_map.h:276-368 | every insertion in flight can make its next access, and waits only for the marker of one that is not waiting |
| ChainOutcomes.LookupsCanGoOn | recorder/src/main/cpp/concurrent_map.h:245-269 | every lookup that is not over can make its next access |
| ChainOutcomes.LookupEndsForAReason | recorder/src/main/cpp/concurrent_map.h:251-265 | a lookup ends at the bucket of its hash, at an unallocated one, or at one that leads nowhere yet |
| ChainOutcomes.StepExplains | recorder/src/main/cpp/concurrent_map.h:276-368 | every access keeps what an insertion knows: the exact number of links and waits, and which buckets behind its tail are taken |
| ChainSolo.AloneAsSequential | recorder/src/main/cpp/concurrent_map.h:276-368 | an insertion that runs alone comes to its end; it allocates the bucket that the sequential code gives its hash exactly if that code accepts it, and leaves the table as it was otherwise |
| ValueRaces.EachValueLeavesOnce | recorder/src/main/cpp/concurrent_map.h:294-305 | the values of a cell leave it in the order in which they entered, each by the exchange that puts the next one there |
| ValueRaces.TrueExactlyIfUnchanged | recorder/src/main/cpp/concurrent_map.h:294-305 | an exchange displaces the value it reports exactly when the cell still holds what was read; otherwise it writes nothing, and a put reports what is still there, or Move when the cell was given up meanwhile, and a remove nothing |
| ValueRaces.RemovesReportTruly | recorder/src/main/cpp/concurrent_map.h:640-662 | a remove that reports a value has displaced just that one; one that displaced nothing reports none or asks for help |
| ValueRaces.HelpExactlyIfMoved | recorder/src/main/cpp/concurrent_map.h:291-293 | an operation asks for help on its load exactly if it reads Move, and goes on with what it has read otherwise |
| ValueRaces.ReportedWhatItDisplaced | recorder/src/main/cpp/concurrent_map.h:349-361 | whoever displaced a value has reported it, and it was not Move |
| ValueRaces.PutCanReportLiveValue | recorder/src/main/cpp/thread_map.h:104-110 | two racing puts of one key: the slower reports, and so releases, a value that is still in the map |
| ValueRaces.PutCanReportMove | recorder/src/main/cpp/concurrent_map.h:298-305 | a put racing with a migration succeeds with Move as the old value |
| ChainProtocol.StepKeeps | recorder/src/main/cpp/concurrent_map.h:276-368 | every atomic access of any insertion or lookup keeps the invariant |
| ChainProtocol.RunKeeps | recorder/src/main/cpp/concurrent_map.h:276-368 | the invariant holds in every state of every run |
| MigrationWorkers.LastFindsDone | recorder/src/main/cpp/concurrent_map.h:438-443 | a worker that passes the last-worker test finds the done flag set |
| MigrationWorkers.LastWorkerSeesAll | recorder/src/main/cpp/concurrent_map.h:400-450 | then no worker is inside migrateRange and, unless a chunk overflowed, every chunk of every source was migrated exactly once |
| MigrationWorkers.PassesCounted | recorder/src/main/cpp/concurrent_map.h:401-443 | the test is passed once, plus once for every worker that entered after the flag was set and found nobody inside |
| MigrationWorkers.PublishedOnce | recorder/src/main/cpp/concurrent_map.h:401-450 | if no worker enters after the flag is set, exactly one passes |
| MigrationWorkers.LateWorkerPassesAgain | recorder/src/main/cpp/concurrent_map.h:401-405 | a worker held up between the test and the increment passes the last-worker test a second time |
| MigrationWorkers.TwoCanBeLast | recorder/src/main/cpp/concurrent_map.h:401-443 | a run with one chunk and two workers in which both pass the last-worker test |
| MigrationWorkers.LastsCounted | recorder/src/main/cpp/concurrent_map.h:438-477 | those who pass are the first and every late entry into an empty run; after an overflow the source tables are handed on by the first one to get the mutex, and whoever faults is a late entry |
| MigrationWorkers.NobodyFaults | recorder/src/main/cpp/concurrent_map.h:453-465 | if no worker enters after the flag is set, none follows a null source table |
| MigrationWorkers.LateWorkerFaults | recorder/src/main/cpp/concurrent_map.h:453 | a worker that enters when the last one has restarted already follows the null source table |
| MigrationWorkers.LateWorkerCanFault | recorder/src/main/cpp/concurrent_map.h:400-477 | an overflowed run with two workers in which that happens |
| MigrationWorkers.WorkersGoOn | recorder/src/main/cpp/concurrent_map.h:400-477 | every worker that has not faulted can make its next access; at a source it goes on to draw a chunk exactly if the done flag is clear |
| MigrationWorkers.NobodyNewOnceDone | recorder/src/main/cpp/concurrent_map.h:401-404 | once the done flag is set nobody new comes: whoever enters then has tested it before |
| MigrationWorkers.LogFits | recorder/src/main/cpp/concurrent_map.h:427-430 | as many finished chunks as there are units means that all are finished |
| MigrationWorkers.DrawnKeeps | recorder/src/main/cpp/concurrent_map.h:416-417 | a drawn chunk is finished, being moved or given up, and only one of these |
| MigrationWorkers.FlagsKeeps | recorder/src/main/cpp/concurrent_map.h:420-431 | whoever has to set the done flag is still there until it is set |
| MigrationWorkers.StepKeeps | recorder/src/main/cpp/concurrent_map.h:400-450 | every access of any worker keeps the invariant |
| MigrationCells.OnePlaceEach | recorder/src/main/cpp/concurrent_map.h:452-531 | at every moment, with concurrent writers, late workers, overflows and restarts, each live entry is in exactly one place with its value |
| MigrationCells.NothingStale | recorder/src/main/cpp/concurrent_map.h:480-531 | no place holds anything but the current value of a live entry or an erased one |
| MigrationCells.CarriedIsNew | recorder/src/main/cpp/concurrent_map.h:514-517 | what a worker carries is not in the destination yet |
| MigrationCells.FinishedHolds | recorder/src/main/cpp/concurrent_map.h:445-450 | on success every source cell is Move, the destination is the map, and as many buckets are allocated as entries are live |
| MigrationCells.RestartConserves | recorder/src/main/cpp/concurrent_map.h:457-473 | the restart with the old destination as an extra source conserves the map |
| MigrationCells.RestartStarts | recorder/src/main/cpp/concurrent_map.h:459-473 | the restart has the old sources and the old destination to move, none of them begun, and a fresh destination twice as large |
| MigrationCells.WorkersGoOn | recorder/src/main/cpp/concurrent_map.h:484-529 | a worker in a chunk can always go on: with its cell, with the entry in its hand, or by ending the chunk exactly when it is through |
| MigrationCells.PutBackConserves | recorder/src/main/cpp/concurrent_map.h:518-520 | restoring the value after an overflow conserves the map |
| MigrationCells.TasksKeeps | recorder/src/main/cpp/concurrent_map.h:480-531 | the cells before a worker in its chunk, and all cells of finished chunks, stay Move |
| MigrationCells.StepKeeps | recorder/src/main/cpp/concurrent_map.h:452-531 | every step of workers, writers and restarts keeps the invariant |
| MigrationCells.RunKeeps | recorder/src/main/cpp/concurrent_map.h:400-531 | the invariant holds in every state of every run |
| EpochGC.GC.constructor | recorder/src/main/cpp/concurrent_map.h:178 | an empty collector in epoch 1 |
| EpochGC.GC.StartEpoch | recorder/src/main/cpp/concurrent_map.h:160-172 | the old garbage is deleted from the back, the recent becomes old, all threads are awaited again |
| EpochGC.MethodsAreSteps | recorder/src/main/cpp/concurrent_map.h:180-222 | the methods of the object do what the state machine does when nothing comes in between |
| EpochGC.GC.AttachThread | recorder/src/main/cpp/concurrent_map.h:180-185 | a new thread is one epoch behind and counted |
| EpochGC.GC.DetachThread | recorder/src/main/cpp/concurrent_map.h:187-199 | a leaving thread is counted off if it was still awaited, and may begin a new epoch |
| EpochGC.GC.Safepoint | recorder/src/main/cpp/concurrent_map.h:201-213 | a thread catches up, is counted off once per epoch, and may begin a new epoch |
| EpochGC.GC.SignalSafepoint | recorder/src/main/cpp/concurrent_map.h:216-222 | the same without ever beginning an epoch |
| EpochGC.GC.ScheduleDelete | recorder/src/main/cpp/concurrent_map.h:224-230 | the table becomes recent garbage |
| EpochGC.GC.Destroy | recorder/src/main/cpp/concurrent_map.h:232-236 | all garbage is deleted, each table as often as it was listed |
| EpochGC.RemainingCounts | recorder/src/main/cpp/concurrent_map.h:160-222 | outside the two writes that begin an epoch, remaining is the number of attached threads that have not reached the global epoch plus the unlocked decrements that fell between such writes; it is exact exactly when there was none |
| EpochGC.DecrementCanBeLost | recorder/src/main/cpp/concurrent_map.h:168-169 | a run of two threads in which one is lost: with no thread left the counter is 1 and a table stays |
| EpochGC.NothingFreedAfterLoss | recorder/src/main/cpp/concurrent_map.h:160-229 | after such a loss no table is ever deleted again |
| EpochGC.NothingInUseIsFreed | recorder/src/main/cpp/concurrent_map.h:201-230 | as long as every publication replaced the table it had read by one never published before, no thread holds a deleted table looked up since its last safepoint, and the current table is not deleted |
| EpochGC.FreedOnce | recorder/src/main/cpp/concurrent_map.h:160-172 | each replacement of a table is in one list at most and carried out at most once; as long as no table was published twice nor given up by two workers, a table is deleted at most once |
| EpochGC.GracePeriod | recorder/src/main/cpp/concurrent_map.h:160-229 | what a scheduling asks for is carried out only after every thread attached then has been counted off at a safepoint, or detached; this holds of every scheduling, also of a table published twice |
| EpochGC.WellPublishedStep | recorder/src/main/cpp/concurrent_map.h:665-669 | a step leaves that condition intact exactly when it is not a store of a table published before or in place of another one than the worker had read |
| EpochGC.PublishedInTurn | recorder/src/main/cpp/concurrent_map.h:447-450 | the condition holds when publications come one after the other, each of a table never published before |
| EpochGC.WellPublishedMeans | recorder/src/main/cpp/concurrent_map.h:665-669 | the condition holds exactly when no table was given up twice and the current one never was |
| EpochGC.SafeExactlyIfWellPublished | recorder/src/main/cpp/concurrent_map.h:447-450 | once all garbage is deleted and nobody is publishing, the current table is not deleted and none was deleted twice exactly if the condition holds |
| EpochGC.RepublishedIsGivenUp | recorder/src/main/cpp/concurrent_map.h:665-669 | a worker that stores the table that is current already gives that very table up |
| EpochGC.RepublishedIsFreed | recorder/src/main/cpp/concurrent_map.h:447-450 | a run in which two workers publish a table: it is deleted while it is current, and a thread looks it up after that |
| EpochGC.ReadTogetherFreesTwice | recorder/src/main/cpp/concurrent_map.h:665-669 | a run in which both have read the old table, which is scheduled twice |
| EpochGC.GarbageAccounted | recorder/src/test/cpp/test_maps.cpp:127-129 | tables scheduled are recent, old or deleted, and none is lost |
| EpochGC.EveryoneGoesOn | recorder/src/main/cpp/concurrent_map.h:160-230 | the holder of the mutex can go on with the epoch it begins, an attached thread with its safepoint or another, and a publication with its next step |
| EpochGC.SoleThreadFreesAll | recorder/src/test/cpp/test_maps.cpp:127-129 | after the safepoint and detachment of the only thread as many tables are deleted as were scheduled if no decrement was ever lost, and none is deleted otherwise |
| EpochGC.IncrementKeeps | recorder/src/main/cpp/concurrent_map.h:168 | the epoch moves only when nobody is behind, and everybody is then |
| EpochGC.ResetKeeps | recorder/src/main/cpp/concurrent_map.h:169-171 | the garbage that becomes old waits only for threads that are behind |
| EpochGC.DeleteKeeps | recorder/src/main/cpp/concurrent_map.h:164-167 | the garbage deleted waits for nobody |
| EpochGC.StepKeeps | recorder/src/main/cpp/concurrent_map.h:180-230 | every access of any thread keeps the invariant |
| EpochGC.TraceKeeps | recorder/src/main/cpp/concurrent_map.h:180-230 | the invariant holds in every state of every run |
| Ring.FullAndEmpty | recorder/src/main/cpp/circular_queue.h:16-20 | the indices look full exactly at 1024 items and empty exactly at none |
| RingProtocol.RecordedInOrder | recorder/src/main/cpp/circular_queue.cpp:5-67 | unless the ring was overrun, the listener sees the items in claim order, each once, with the contents pushed, and only after the commit |
| RingProtocol.FullExactly | recorder/src/main/cpp/circular_queue.cpp:9-15 | at most 1024 are unread; the indices look full exactly when 1024 slots are taken |
| RingProtocol.RefusedExactly | recorder/src/main/cpp/circular_queue.cpp:10-14 | a push is refused exactly when the ring is full and was when it read the index, or when the consumer has come one slot past that index, in the same turn or a later one |
| RingProtocol.EmptyRingCanRefuse | recorder/src/main/cpp/circular_queue.cpp:10-14 | a run in which an empty ring refuses a push |
| RingProtocol.OverrunNeedsATurn | recorder/src/main/cpp/circular_queue.cpp:10-16 | a push claims a slot of a full ring only after the others have claimed all 1025 slots since it read the index |
| RingProtocol.OverfullExactly | recorder/src/main/cpp/circular_queue.cpp:9-16 | more than 1024 items were in the ring exactly if such a claim was made |
| RingProtocol.AttemptsGoOn | recorder/src/main/cpp/circular_queue.cpp:8-15 | a push without a slot can make its next access, and ends by a refusal or by claiming a slot for its own item alone |
| RingProtocol.PushesGoOn | recorder/src/main/cpp/circular_queue.cpp:16-20 | a push with a slot can make its next access until it has committed |
| RingProtocol.ConsumerGoesOn | recorder/src/main/cpp/circular_queue.cpp:38-67 | the consumer looks at an item exactly if there is one, records it exactly if its push has committed, and can then go on |
| RingProtocol.FullRingCanBeOverrun | recorder/src/main/cpp/circular_queue.cpp:9-16 | a run in which it is made; the ring with 1025 items then looks empty to the consumer |
| RingProtocol.UnreadIntact | recorder/src/main/cpp/circular_queue.cpp:16-18 | unless the ring was overrun, a committed item that is not recorded yet is in its slot as it was pushed |
| RingProtocol.SlotsApart | recorder/src/main/cpp/circular_queue.cpp:9-18 | unless the ring was overrun, items in it never share a slot |
| RingProtocol.FreeSlotsClean | recorder/src/main/cpp/circular_queue.cpp:53-64 | unless the ring was overrun, a slot without an item is uncommitted, without thread and all zero |
| RingProtocol.ClaimKeeps | recorder/src/main/cpp/circular_queue.cpp:9-16 | an exchange when the ring is not full takes a free, clean slot |
| RingProtocol.PushKeeps | recorder/src/main/cpp/circular_queue.cpp:24-36 | the writes of a push touch its own slot only |
| RingProtocol.RecordKeeps | recorder/src/main/cpp/circular_queue.cpp:46-51 | the slot being recorded holds the oldest item |
| RingProtocol.AdvancedKeeps | recorder/src/main/cpp/circular_queue.cpp:61-64 | giving a slot back leaves it clean |
| RingProtocol.StepKeeps | recorder/src/main/cpp/circular_queue.cpp:5-67 | every access of any push and of the consumer keeps the invariant, except a claim of a full ring |
| CircularQueues.CircularQueue.constructor | recorder/src/main/cpp/circular_queue.h:41-46 | an empty queue with zeroed frames |
| CircularQueues.CircularQueue.Push | recorder/src/main/cpp/circular_queue.cpp:5-21 | appends the item, or refuses when 1024 are in the queue |
| CircularQueues.CircularQueue.Write | recorder/src/main/cpp/circular_queue.cpp:24-36 | copies the frames into a zeroed buffer and touches no other slot |
| CircularQueues.CircularQueue.Pop | recorder/src/main/cpp/circular_queue.cpp:38-67 | hands the oldest item to the listener, or reports that there is none |
| CircularQueues.CircularQueue.Clean | recorder/src/main/cpp/circular_queue.cpp:53-62 | zeroes all frames of the slot and frees it |
| ThreadBuckets.CountedAndDeleted | recorder/src/main/cpp/thread_map.h:56-77 | the counter is the number of places that refer to the bucket; it is deleted, or about to be, exactly when there is none, and once |
| ThreadBuckets.NoUseAfterDelete | recorder/src/main/cpp/thread_map.h:68-127 | no step of an owner or of the consumer uses a deleted bucket, nor one that is about to be deleted |
| ThreadBuckets.GetAcquires | recorder/src/main/cpp/thread_map.h:85-94 | a get that finds a bucket always acquires it |
| ThreadBuckets.EveryoneGoesOn | recorder/src/main/cpp/thread_map.h:85-127 | an owner can begin any operation its cell allows and go on in the middle of one; so can the consumer, and a doomed bucket can be deleted |
| ThreadBuckets.DroppedIsNeverDeleted | recorder/src/main/cpp/profiler.cpp:93-96 | a sample refused by a full queue keeps its bucket for good |
| ThreadBuckets.SlotDanglesOnlyWhilePopped | recorder/src/main/cpp/circular_queue.cpp:51-59 | no map cell and no unread slot points to a bucket that is deleted or about to be; the slot being popped does exactly when no place refers to its bucket any more, and until it is cleared |
| ThreadBuckets.SlotCanDangle | recorder/src/main/cpp/log_writer.cpp:110-111 | a run in which that slot does point to a deleted bucket |
| ThreadBuckets.ReleaseKeeps | recorder/src/main/cpp/thread_map.h:68-72 | giving up the last reference dooms the bucket, giving up another does not |
| ThreadBuckets.InsertKeeps | recorder/src/main/cpp/thread_map.h:104-111 | the exchange in put moves the references, it makes none |
| ThreadBuckets.StepKeeps | recorder/src/main/cpp/thread_map.h:85-127 | every step keeps the invariant |
| BucketEpochs.AttachedExactly | recorder/src/main/cpp/thread_map.h:63-127 | the threads attached to the collector are those of the buckets an owner can still detach and, exactly, those of the buckets put has displaced, which nobody can |
| BucketEpochs.DisplacedStep | recorder/src/main/cpp/thread_map.h:106-109 | a bucket is displaced exactly by a put that finds one in the map |
| BucketEpochs.DisplacedStays | recorder/src/main/cpp/thread_map.h:106-126 | its thread stays attached for good, passes no safepoint and keeps its epoch |
| BucketEpochs.NothingFreedAfterDisplacement | recorder/src/main/cpp/thread_map.h:106-109 | no table scheduled after that is ever deleted |
| BucketEpochs.EpochsStop | recorder/src/main/cpp/thread_map.h:106-109 | at most one more epoch begins after that |
| BucketEpochs.SecondPutKeepsGarbage | recorder/src/main/cpp/thread_map.h:104-127 | a run with two puts of one thread and its removal: no bucket is left, one thread is attached and awaited, and a replaced table stays |
| BucketEpochs.StepKeeps | recorder/src/main/cpp/thread_map.h:104-127 | every step of the buckets and the collector together keeps the invariant |
| Varints.RoundTrip | recorder/src/main/cpp/profile_writer.h:38-41 | decoding inverts encoding for every 32-bit value, in at most five bytes |
| Varints.Groups | recorder/src/main/cpp/profile_writer.h:38-41 | byte i holds the i-th group of seven bits, least significant first; all but the last have the top bit set, and none is there for nothing |
| Varints.ThreeHundred | recorder/src/main/cpp/profile_writer.h:38-41 | the bytes of 150 and 300, as in the documentation of the encoding |
| Varints.Write | recorder/src/main/cpp/profile_writer.h:38-41 | the bytes written are the encoding, and nothing behind them changes |
| Adler.Incremental | recorder/src/main/cpp/checksum.cpp:9-13 | checksumming piece by piece is checksumming the whole |
| Adler.ClosedForm | recorder/src/main/cpp/checksum.cpp:9-13 | the two sums are those of section 8.2 of RFC 1950 |
| Adler.BaseIsLargestPrime | recorder/src/main/cpp/checksum.cpp:9-13 | the modulus is the largest prime below 65536 |
| Adler.ManyBytes | recorder/src/main/cpp/checksum.cpp:9-13 | the checksum of 300 bytes of 255, for which both sums pass the modulus |
| Adler.Abc | recorder/src/main/cpp/checksum.cpp:9-13 | the checksum of the letters abc |
| Adler.UpdateValid | recorder/src/main/cpp/checksum.cpp:9-13 | the checksum fits 32 bits, as the assertion says |
| Adler.OneByteDetected | recorder/src/main/cpp/checksum.cpp:9-13 | a change of one byte changes the checksum |
| Adler.Accumulator.constructor | recorder/src/main/cpp/checksum.cpp:5-7 | starts at the checksum of nothing |
| Adler.Accumulator.Reset | recorder/src/main/cpp/checksum.cpp:5-7 | back to the checksum of nothing |
| Adler.Accumulator.Add | recorder/src/main/cpp/checksum.cpp:9-13 | continues the checksum over a piece of the buffer |
| ProfileFormat.RoundTrip | recorder/src/test/java/fk/prof/ProfileParsingTest.java:24-127 | reading back any profile gives the same header and entries, every checksum right, no byte left |
| ProfileFormat.SmallProfile | recorder/src/main/cpp/profile_writer.h:59-77 | a small profile byte by byte |
| ProfileFormat.EntriesRead | recorder/src/test/java/fk/prof/ProfileParsingTest.java:24-127 | any list of entries reads back |
| ProfileFormat.EntryRead | recorder/src/main/cpp/profile_writer.h:69-77 | one entry reads back, whatever follows |
| ProfileFormat.SizedRead | recorder/src/main/cpp/profile_writer.h:43-50 | a message with its size reads back |
| ProfileFormat.ProfileIsUnique | recorder/src/main/cpp/profile_writer.h:59-77 | two profiles with the same bytes are the same |
| ProfileFormat.DamagedEntryRefused | recorder/src/main/cpp/profile_writer.h:69-77 | an entry with one changed byte is refused by its checksum |
| ProfileWriters.RoomIffNoWrap | recorder/src/main/cpp/profile_writer.h:20-31 | after asking there is room exactly when neither the sum nor the doubled size wraps at 2^32 |
| ProfileWriters.SmallProfileWritable | recorder/src/main/cpp/profile_writer.h:20-36 | any profile whose messages are below about a third of 2^32 can be written |
| ProfileWriters.LargeEntriesWrap | recorder/src/main/cpp/profile_writer.h:20-36 | two entries of about 1.5e9 bytes can be written and a third of that size cannot: the sum wraps and it does not fit |
| ProfileWriters.ProfileWriter.constructor | recorder/src/main/cpp/profile_writer.h:53 | nothing is written yet |
| ProfileWriters.ProfileWriter.Flush | recorder/src/main/cpp/profile_writer.h:16-18 | the buffered records become one chunk |
| ProfileWriters.ProfileWriter.EnsureFreebuff | recorder/src/main/cpp/profile_writer.h:20-31 | for every 32-bit request: how full and how large the buffer is then; nothing written is lost |
| ProfileWriters.ProfileWriter.WriteUnchecked | recorder/src/main/cpp/profile_writer.h:38-41 | appends a varint within the buffer |
| ProfileWriters.ProfileWriter.WriteUncheckedObj | recorder/src/main/cpp/profile_writer.h:43-50 | appends the size and bytes of a message within the buffer |
| ProfileWriters.ProfileWriter.WriteHeader | recorder/src/main/cpp/profile_writer.h:59-67 | appends the header record, whose checksum continues over all that is buffered |
| ProfileWriters.HeaderAfterEntry | recorder/src/main/cpp/profile_writer.h:59-77 | a header written after an entry: reading the result fails |
| ProfileWriters.ProfileWriter.AppendWse | recorder/src/main/cpp/profile_writer.h:69-77 | appends one sealed entry |
| ProfileWriters.ProfileWriter.Close | recorder/src/main/cpp/profile_writer.h:54-57 | the chunks together are the records written |
| ProfileWriters.WriteProfile | recorder/src/main/cpp/profile_writer.h:53-77 | a whole profile: the chunks concatenate to the unbuffered encoding, read back as written, and break at records only |
| ProfileWriters.WholeChunks | recorder/src/main/cpp/profile_writer.h:16-31 | chunks made of whole records concatenate to the records |
| LineTables.LineIsLatest | recorder/src/main/cpp/log_writer.cpp:25-60 | -101 for an empty table, -102 when all entries start later, otherwise the line of the latest start not after the bci |
| LineTables.ScanIsLatest | recorder/src/main/cpp/log_writer.cpp:47-59 | a plain scan from index 0 finds the same |
| LineTables.BciToLine | recorder/src/main/cpp/log_writer.cpp:25-60 | the halving search with the scan behind it stays in bounds and returns that line |
| LineTables.LineNumber | recorder/src/main/cpp/log_writer.cpp:62-79 | with the bci itself when not positive and -100 on a JVM error |
| LogFormat.LittleIsReversed | recorder/src/main/cpp/log_writer.cpp:13-23 | the memory image of a little-endian host is the network order reversed |
| LogFormat.NumberRead | recorder/src/main/cpp/log_writer.cpp:13-23 | a number reads back, whatever follows |
| LogFormat.BigDigit | recorder/src/main/cpp/log_writer.cpp:13-23 | byte i of a number of n bytes has the weight 256 to the power of n - 1 - i |
| LogFormat.FourEvents | recorder/src/main/cpp/log_writer.cpp:124-162 | one event of each kind byte by byte |
| LogFormat.OneRead | recorder/src/main/cpp/log_writer.cpp:124-162 | one event reads back, whatever follows |
| LogFormat.RoundTrip | recorder/src/main/cpp/log_writer.cpp:81-162 | decoding gives back exactly the events |
| LogFormat.UniquelyDecodable | recorder/src/main/cpp/log_writer.cpp:81-162 | no bytes stand for two sequences of events |
| LogWriters.LogWriter.constructor | recorder/src/main/cpp/log_writer.cpp:81-112 | nothing written, no method known |
| LogWriters.LogWriter.WriteValue | recorder/src/main/cpp/log_writer.cpp:13-23 | writes network order on either kind of host |
| LogWriters.LogWriter.WriteWithSize | recorder/src/main/cpp/log_writer.cpp:147-151 | writes the size and the bytes |
| LogWriters.LogWriter.RecordTraceStart | recorder/src/main/cpp/log_writer.cpp:124-129 | appends the encoding of the event |
| LogWriters.LogWriter.RecordFrameFull | recorder/src/main/cpp/log_writer.cpp:131-137 | appends the encoding of the event |
| LogWriters.LogWriter.RecordFrameBci | recorder/src/main/cpp/log_writer.cpp:140-145 | appends the encoding of the event |
| LogWriters.LogWriter.RecordNewMethod | recorder/src/main/cpp/log_writer.cpp:153-162 | appends the encoding of the event |
| LogWriters.LogWriter.InspectMethod | recorder/src/main/cpp/log_writer.cpp:114-122 | names are looked up once per method, which is known from then on even if that fails |
| LogWriters.LogWriter.RecordFrame | recorder/src/main/cpp/log_writer.cpp:94-108 | one frame, with the line for a positive bci, and its method |
| LogWriters.LogWriter.Record | recorder/src/main/cpp/log_writer.cpp:81-112 | a trace becomes its start, with the thread id of its bucket if it has one, then its frames in order |
| LogWriters.WriteLog | recorder/src/main/cpp/log_writer.cpp:81-162 | the bytes of any log decode, with either host byte order, to events that show its traces: the number and thread of each, and one event per frame, in order, full and with its line when the bci is positive and with the bci alone otherwise |
| LogWriters.LogShows | recorder/src/main/cpp/log_writer.cpp:81-112 | the same of the events: the line is that of the latest table entry not after the bci, -101 for an empty table, -102 when all start later, -100 when the JVM failed |
| LogWriters.NamesGivenOnce | recorder/src/main/cpp/log_writer.cpp:114-122 | in any log the names of a method appear at most once, right after the first frame of it |
| LogWriters.FirstFrameNamed | recorder/src/main/cpp/log_writer.cpp:114-122 | and they do appear there, file, class and name, when the lookup succeeds |
| LogWriters.NamesAreGiven | recorder/src/main/cpp/log_writer.cpp:114-122 | all names in a log are names that the JVM has given for a frame of that method |
| LogWriters.LogAnnounced | recorder/src/main/cpp/log_writer.cpp:114-122 | the known methods are those of the frames logged |
| Profilers.Strings.Copy | recorder/src/main/cpp/agent.cpp:258-266 | one more string is allocated |
| Profilers.Strings.Free | recorder/src/main/cpp/agent.cpp:268-273 | only an allocated string may be freed |
| Profilers.Profiler.constructor | recorder/src/main/cpp/profiler.h:71-89 | validates the arguments and builds all objects |
| Profilers.Profiler.SetSamplingInterval | recorder/src/main/cpp/profiler.cpp:169-186 | no effect while running; otherwise the interval of WithInterval |
| Profilers.WithInterval | recorder/src/main/cpp/profiler.cpp:174-182 | the two arguments in order, with 1 in place of what is not positive, and nothing else changed |
| Profilers.WithMaxFrames | recorder/src/main/cpp/profiler.cpp:193-200 | the argument from 1 to 2047, 128 otherwise, and nothing else changed |
| Profilers.ProcessorInterval | recorder/src/main/cpp/profiler.cpp:281-282 | half the time in which 1024 samples are taken, in whole milliseconds, and at least one |
| Profilers.Profiler.SetMaxFramesToCapture | recorder/src/main/cpp/profiler.cpp:188-204 | no effect while running; otherwise the number, or 128 when outside 1 to 2047 |
| Profilers.Profiler.SetFilePath | recorder/src/main/cpp/profiler.cpp:148-167 | no effect while running; otherwise the old live path is freed unless shared, and the new one copied |
| Profilers.Profiler.Configure | recorder/src/main/cpp/profiler.cpp:233-285 | afterwards effective and live configuration agree; what no changed setting asks for is the same object as before, all else a new one |
| Profilers.Profiler.RebuildWriter | recorder/src/main/cpp/profiler.cpp:238-263 | file and writer are new, the path is shared |
| Profilers.Profiler.TakePath | recorder/src/main/cpp/profiler.cpp:241-255 | the old effective path is freed and the live one shared, or a name made up |
| Profilers.Profiler.RebuildBuffer | recorder/src/main/cpp/profiler.cpp:266-270 | the queue is made for the new writer and frame count |
| Profilers.Profiler.RebuildProcessor | recorder/src/main/cpp/profiler.cpp:275-283 | handler and processor are made for the new objects |
| Profilers.Profiler.Start | recorder/src/main/cpp/profiler.cpp:99-120 | afterwards the profiler runs with the live configuration; starting twice changes nothing |
| Profilers.Profiler.Stop | recorder/src/main/cpp/profiler.cpp:122-134 | afterwards it does not run |
| Profilers.Profiler.Unload | recorder/src/main/cpp/agent.cpp:358-360 | no string and no object is left |
| Profilers.Session | recorder/src/main/cpp/profiler.cpp:148-298 | any commands in any order, then unloading: every copied string is freed exactly once, whatever addresses the allocator picks, also depending on what happened before |

## Left out

- Memory orders weaker than sequential consistency, spin waits and their fairness: safety only is proved of concurrent runs, termination of sequential code.
- Two insertions of one hash in flight: `ChainProtocol` has one per hash, and says nothing of more.
- The value part of an insertion in `ChainProtocol` and `ChainSolo`: `ValueRace` has it, for one cell. Linearizability of a put that races with a migration: the failed exchange reports success even when the cell became Move.
- Table sizes beyond int, epoch numbers beyond unsigned int, reference counts beyond int: unbounded here.
- `JobCoordinator::participate`, `capacity`, `unsafeUsed` and `unsafeDirty`: waiting and plain reads.
- The hash function of pointers in `thread_map.h`: it stays abstract.
- zlib's way of computing Adler-32: its sums are modelled, not its deferred reductions.
- Protocol buffer messages are byte strings; a failing serialization, which the writer ignores, is not modelled, nor are varints longer than five bytes.
- JVMTI, JNI, signals, timers, sockets, threads of the processor, argument parsing and trace counters: foreign calls or plumbing; what the JVM answers about a frame comes with the frame.
- Destructors of `Migration`, `HashTable`, `ThreadBucket` and the queue, and references held by a queue that is rebuilt.
- The host and port strings of the configuration: only its destructor touches them.
- ConcurrentMaps.ConcurrentMap.TargetSize: the float product and quotient are exact integers, as sizes are powers of two and counts at most 256.
- HashTables.HashTable.constructor: takes the size from the power-of-two function itself; that the bit operations compute it up to 2^30 is `Pow2.NearestPow2`.
- Pow2.NearestPow2: where an int overflows, which C++ leaves undefined, it is taken to wrap.
- ChainProtocol.LookupsFind: says which bucket a lookup ends at, not which value is read there afterwards.
- MigrationCells.CarriedIsNew: re-insertion is one step into any free cell of the destination; which one, and when it overflows, is modelled in `Migrations` for one worker.
- EpochGC.GC.SignalSafepoint: as one call; its interleaving with other threads is in the state machine, and likewise for the other methods of the object.
- CircularQueues.CircularQueue.Pop: without the wait for a commit, which never happens with one thread; rows of a matrix stand for the separately allocated frame buffers.
- ProfileWriters.ProfileWriter.AppendWse: for messages the buffer has room for; what the others overwrite is not modelled, and neither are messages whose size an int cannot hold. The same holds of WriteHeader.
- LogWriters.LogWriter.Record: giving the thread's bucket back at the end is part of `ThreadBuckets`.
- Profilers.Profiler.Start: installing the handler, setting the timer and its result are foreign calls; the processor counts as running once started.
