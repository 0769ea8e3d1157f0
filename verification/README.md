# Verification of the leased ids, the inventory participant, event delivery and the read cache

A Dafny model of four parts of the system, and proofs of what each is for. `dafny verify dfyconfig.toml`
checks the whole project.

**Leased snowflake ids.** Any number of processes lease one of 254 node ids from etcd and stamp
`45 ts | 8 node | 10 sequence` ids with no random bits. `SnowflakeCodec`, `SnowflakeGenerator`, `NodeLease`,
`LeaseKeyspace`, `EtcdLeaseStore` and `LiftFloors` model the code piece by piece: the classes keep the source's
fields, an asynchronous operation is split where it awaits the store, clocks and faults are scripted histories
about which nothing is assumed but a monotonic clock that does not run backwards. `LeaseProtocol` puts etcd, all
processes, stale holders, transactions left in flight by callers that gave up or died, and every id handed out
into one state machine; its process steps are the specification functions the `NodeLease` class is proved against.
`LeaseInvariant` and `LeaseSafety` prove fleet-wide uniqueness over every run.

The proof asks one thing of a run, `LeaseProtocol.Guarded`: a raise of the ceiling that goes through leaves the
floor over its own holder. Every call may otherwise land arbitrarily late. `raiseCeiling` compares only the
generation, so the code does not ensure it by itself. Two conditions do, and each is proved to: that no raise that
goes through brings the floor down (`LeaseSafety.ComparingTheFloorSuffices`; etcd could compare it), and that a raise
whose caller saw it fail and lives on has landed by then or never will (`LeasePrompt.PromptRaisesSuffice`; what the
store relies on). `LateRaise` shows the guard exact: a late raise is harmless if and only if it is not below the
ceiling of its holder, and a run of the store's own calls, with a 300 second TTL, hands one id out twice.

`LeaseTiming` puts the same fleet in real time. etcd ends a lease only when its TTL since the last grant or
keep-alive is over, or once its process is done with it; a process reads its anchor before it asks. Until a TTL past
its anchor a holder owns its node in etcd. `NodeLease.Generate` proves that an id leaves by the margin before that
if either clock kept pace since the anchor, and then no id leaves under a lapsed lease and the tenures of a node do
not interleave. Uniqueness needs none of this.

`LiftSafety` lifts a keyspace that lost its keys under processes that are still running, while its revisions go on.
`LostKeyspace` loses all of it: a new volume counts revisions from wherever it starts, and between the loss, the
chunks of the lift and the marker old holders mint, renew, fail and crash. `RestartedRevisions.NewVolumeIsSafeIff` is
the exact condition for taking it up again: no ceiling above its node's new floor, and nobody acting for a generation
above the revision the new volume has got to. Both can be told before anyone mints. The safe half goes through
`Renumbering`: every run on low revisions mirrors one on revisions that went on. The unsafe half builds a run for
every holder, raise, drop and release such a generation can be left with; `NewVolumeRun` is one from an empty fleet.

`StoreRely` shows that what `EtcdLeaseStore` relies on of other clients is what the rest of the fleet does.

**Inventory.** `ReservationFence` is the decision over an order's header, `StockTables` the three tables and every
command as one atomic step, `StockInvariant` what a run of commands keeps and conserves. `StockRepository` and
`InventoryParticipant` are the statements as the source issues them, inside one READ COMMITTED transaction with
other transactions committing between any two statements; both lock strategies meet the same postcondition,
which is the atomic command applied to the tables at commit. `StockSchedule` interleaves any number of such
transactions under row locks, and proves that their commits are a run of atomic commands and that they never
deadlock. Lines are asked for in positive quantities only where a lemma says so (`AsksPositive`); the
constraints of the tables hold without that.

**Event delivery.** `MessageDelivery` is one event on its way to one consumer: outbox row, main queue, failed set,
dead letter, inbox claim, effect, with the relay, workers that outlive their job, the router, a replay and the
sweeps interleaved and crashing. `DeadLetterReplay`, `OutboxRelay` and `DomainEventProcessor` are the loops
themselves. A job's age counts as the queue counts it, from when it was added and again from each failure, and a
job is not processed later than its horizon (`Confined`). `Lags` bounds how late the queue may hear of a job again
once its effect has committed. The retention that exactly-once needs is then exact: the horizon and the longest lag
on top of it (`MessageHazards.AppliedTwiceIffRetentionIsShort`), so the lag a deployment can afford is its retention
less seven days. `Careful` says what nobody may do to an event that is not applied yet: let a failed job age out
unless the event is still to be published or is a dead letter no replay is about to drop, and route a failure while
a replay has read its dead letter. It is exact too (`MessageHazards.CarefulIffNeverLost`).

**Read cache.** `SwrCache` is one key of the stale-while-revalidate cache with its leased rebuild lock.

## What the proofs turned up

- A raise that lands after its caller gave up can take a floor below the ceiling its holder has confirmed since, and
  two processes then hand out the same id (`LateRaise.LateRaiseIssuesAnIdTwice`). Comparing the floor in the raise,
  as the claim does, would prevent it.
- A new etcd volume counts its revisions from the start, and generations are revisions. The same lift takes the same
  number of revisions, so the first claim after it can have the generation of the first claim on the lost volume. A
  replica that still holds that takes the new claim of its node for its own at its next renew, and both stamp there
  (`NewVolumeRun.NewVolumeIssuesAnIdTwice`), even though the lift waited out every TTL. The runbook has old replicas'
  renews find no owner. Counting the revision up to every generation in use before the marker, or stopping every
  replica, is what it takes (`RestartedRevisions.NewVolumeIsSafeIff`).
- A spin that re-reads a clock which has moved on still reports `loop_cap` when that was its last try
  (`SnowflakeGenerators.LiveClockIsRefused`), and gives up on a live clock in no other way; the comment in the source
  says the re-read prevents it.
- The system clock reads its milliseconds and its nanoseconds off one counter. On it a stall is never for the deadline,
  and is spurious exactly when the last look found the deadline past
  (`SnowflakeGenerators.TiedStallIsSpuriousIffDeadlineIsPast`).
- The boot check accepts a retention equal to the failed jobs' own seven days, where the runbook asks for more. At
  that minimum any lag at all applies an effect twice (`MessageHazards.BootMinimumLeavesNoRoom`): a worker commits and
  dies, its job is failed as stalled, and a person runs it again before the week is over.
- The same bound holds for a relay that dies between publish and mark and comes back: the age of the rows it may
  publish again, which nothing limits, is the lag the retention has to cover (`MessageHazards.LateRelayAppliesTwice`).
- A forced replay is safe exactly when the effect was never applied; otherwise it may apply it twice.
- A replay and the router moving the same message, both dying half way, lose it.
- The locked reserve reports a missing stock row before it looks for an existing hold, the CAS form after (the last
  clauses of `StockRepository.HoldUnderLock` and `HoldByCas`); the tables' own invariant excludes the case.

## Model

| member | source | states |
|---|---|---|
| SnowflakeCodec.PackIsShiftsAndOrs | packages/id-codec/src/snowflake.codec.ts:73-76 | the sum the model computes is the three fields shifted into place and ORed |
| SnowflakeCodec.UnpackIsShiftsAndMasks | packages/id-codec/src/snowflake.codec.ts:88-92 | its quotients and remainders are the value shifted and masked |
| SnowflakeCodec.DecodeEncode | packages/id-codec/src/snowflake.codec.ts:67-93 | every valid field triple encodes to a string that decodes to it, and every other triple is refused |
| SnowflakeCodec.EncodeDecode | packages/id-codec/src/snowflake.codec.ts:55-93 | every string that decodes, a canonical decimal in [2^18, 2^63), is the encoding of what it decodes to |
| SnowflakeCodec.IdOrderIsFieldOrder | packages/id-codec/src/snowflake.codec.ts:67-79 | the numeric order of ids is exactly the lexicographic order of (ts, node, sequence) |
| SnowflakeCodec.EncodeInjective | packages/id-codec/src/snowflake.codec.ts:67-79 | two field triples with one encoding are the same triple |
| SnowflakeCodec.FromToDecimal | packages/id-codec/src/snowflake.codec.ts:45-59 | printing a number and parsing it gives it back, with no leading zero |
| SnowflakeCodec.ToFromDecimal | packages/id-codec/src/snowflake.codec.ts:45-59 | a canonical decimal is the printed form of its value, so one id has one spelling |
| SnowflakeGenerators.SnowflakeGenerator.constructor | packages/id-generator/src/snowflake.generator.ts:39-54 | the timeline starts above the floor and not below the wall clock |
| SnowflakeGenerators.SnowflakeGenerator.Now | packages/id-generator/src/snowflake.generator.ts:101-111 | the reading is the wall clock just read or, if that is further on, where the monotonic clock puts the timeline; none is below an earlier one, for any wall-clock history |
| SnowflakeGenerators.SnowflakeGenerator.SpinPast | packages/id-generator/src/snowflake.generator.ts:113-134 | the loop computes the bounded spin and leaves stamp and sequence alone; it gives up although it has read the timeline past the millisecond exactly when its last look re-read it late |
| SnowflakeGenerators.SpinProperties | packages/id-generator/src/snowflake.generator.ts:113-134 | a spin stays within its cap of looks and succeeds only past the millisecond |
| SnowflakeGenerators.SpinEndsWithItsLastLook | packages/id-generator/src/snowflake.generator.ts:120-133 | a spin ends with the verdict, the timeline and the reading its last look ends with, or for want of another try |
| SnowflakeGenerators.StallIsSpuriousIffRereadIsLate | packages/id-generator/src/snowflake.generator.ts:126-133 | a stall whose last reading is past the millisecond is exactly one whose last look found the deadline past and re-read late, and is always a loop-cap stall |
| SnowflakeGenerators.TiedStallIsSpuriousIffDeadlineIsPast | packages/id-generator/src/identity-clock.ts:15-20 | on a clock whose milliseconds are its nanoseconds, no spin gives up for its deadline, and one that gives up has read the timeline past the millisecond exactly when its last look found the deadline past |
| SnowflakeGenerators.LiveClockIsRefused | packages/id-generator/src/snowflake.generator.ts:118-133 | on such a clock, a generator that stalls twice at one millisecond, the second time by its cap of one try although it has read the timeline past it |
| SnowflakeGenerators.SnowflakeGenerator.Generate | packages/id-generator/src/snowflake.generator.ts:80-99 | every mint is stamped at or after the wall clock and the timeline it read and above the floor; successive (ts, sequence) strictly increase, across overflow and refused mints; a stall is what the bounded spin says, with the sequence used up |
| NodeLeases.NodeLease.Fenced | packages/id-generator/src/node-lease.ts:203-218 | for a held node, open if and only if both clocks ran less than the TTL less the margin since the anchor, the wall clock ran ahead of the monotonic one by no more than the margin, and nothing is stamped past the ceiling |
| NodeLeases.NodeLease.Generate | packages/id-generator/src/node-lease.ts:109-116 | a fence shut at the first look hands nothing out and stamps nothing; otherwise an id comes out, above every id this process ever handed out, unless the fence was shut after the stamp, the stamp has no encoding, or the generator stalled; and it is out in real time before the TTL since the anchor is over, by the margin, if either clock kept pace |
| NodeLeases.DrainingIsForGood | packages/id-generator/src/node-lease.ts:118-123 | after a drain or a release no answer of the store lets the process acquire again |
| NodeLeases.NodeLease.BeginAcquire | packages/id-generator/src/node-lease.ts:118-127 | refused while draining, held, released or overlapping; otherwise anchored before the store is called |
| NodeLeases.NodeLease.SettleAcquire | packages/id-generator/src/node-lease.ts:127-147 | held with a generator floored above the grant and every id minted before, exhausted, owing the release of a node whose floor is too far ahead, or none of them for a floor or node id no generator can have |
| NodeLeases.NodeLease.BeginRenew | packages/id-generator/src/node-lease.ts:151-163 | asks with the last stamp, anchored before the store is called |
| NodeLeases.NodeLease.SettleRenew | packages/id-generator/src/node-lease.ts:164-171 | a refusal retires the node, a ceiling moves anchor and ceiling, a failure changes neither |
| NodeLeases.NodeLease.BeginRelease | packages/id-generator/src/node-lease.ts:179-193 | minting stops before the store hears of it, and the stamp it hears of covers every id handed out |
| NodeLeases.NodeLease.Retire | packages/id-generator/src/node-lease.ts:195-201 | nothing is held any more, and the retired stamp is at least the last stamp of the generator given up and every earlier one |
| LeaseKeyspace.LiftAt | apps/id-service/src/lease/lift-floors.ts:48-59 | a lift chunk lowers no floor and leaves owners and other nodes alone |
| EtcdLeaseStores.FreeOldestFirst | apps/id-service/src/lease/etcd-lease-keyspace.ts:120-126 | exactly the free nodes, each once, the one whose floor was written longest ago first, ties by id |
| EtcdLeaseStores.EtcdLeaseStore.LeaseForClaim | apps/id-service/src/lease/etcd-lease-store.ts:106-111 | the pending lease while it lives, else a lease never used before, remembered before it is used, with the old one gone |
| EtcdLeaseStores.EtcdLeaseStore.Claim | apps/id-service/src/lease/etcd-lease-store.ts:113-136 | a won claim owns the node under the lease with the ceiling as its floor; a lost one leaves the lease owning nothing |
| EtcdLeaseStores.EtcdLeaseStore.Readopt | apps/id-service/src/lease/etcd-lease-store.ts:138-151 | the node already claimed, same generation, with its ceiling raised and never lowered |
| EtcdLeaseStores.EtcdLeaseStore.ClaimAny | apps/id-service/src/lease/etcd-lease-store.ts:91-104 | ends having tried each candidate at most once, the oldest first; exhaustion means every claim was refused |
| EtcdLeaseStores.EtcdLeaseStore.Acquire | apps/id-service/src/lease/etcd-lease-store.ts:83-104 | nothing is claimed or answered off a keyspace without its marker; at most one node is ever owned under the lease; a failed attempt keeps the lease for the next unless nothing is owned under it, and is for a missing marker, a fault or a lost lease; a node owned under it is the only answer, else the free node idle longest if its claim goes through; exhaustion means every free node was refused once |
| EtcdLeaseStores.EtcdLeaseStore.AcquireAgain | apps/id-service/src/lease/etcd-lease-store.ts:38-57 | two attempts in a row: a node the first claimed before it failed is the answer of the second, at the same generation, unless that lease is gone and owns nothing |
| EtcdLeaseStores.ApplyKeepsOneNode | apps/id-service/src/lease/etcd-lease-store.ts:113-136 | no transaction gives one etcd lease a second node |
| EtcdLeaseStores.EtcdLeaseStore.Renew | apps/id-service/src/lease/etcd-lease-store.ts:59-65 | the ceiling confirmed is the floor etcd holds, a TTL past every stamp and past the wall clock read, and no lower than before; null only when the node or lease is gone, and failure only on a fault |
| EtcdLeaseStores.EtcdLeaseStore.Release | apps/id-service/src/lease/etcd-lease-store.ts:67-81 | the generation owns nothing afterwards; unless the node was lost already, exactly one drop was asked for and answered, to the floor of what was stamped but not below the claim floor |
| LeaseInvariant.LandedInv | apps/id-service/src/lease/etcd-lease-store.ts:113-166 | a claim or drop landing at any time, and a raise that leaves the floor over its holder, keep every floor over every holder and every id |
| LeaseInvariant.GeneratedInv | packages/id-generator/src/node-lease.ts:109-116 | a minted id is new, covered by the floor, and inside its tenure's window |
| LeaseInvariant.CrashInv | apps/id-service/src/lease/etcd-lease-store.ts:36-57 | a process dying with a transaction in flight keeps the invariant, whenever that lands |
| LeaseInvariant.FailInv | apps/id-service/src/lease/etcd-lease-store.ts:50-57 | so does a call failing with its outcome unknown |
| LeaseInvariant.NextInv | apps/id-service/src/lease/etcd-lease-store.ts:50-166 | every step of the fleet keeps the invariant, if a raise that goes through leaves the floor over its holder |
| LeaseSafety.NoIdIsIssuedTwice | packages/id-generator/src/node-lease.ts:109-148 | in every guarded run of any number of processes no two ids handed out are equal, as fields or as strings |
| LeaseSafety.ComparingTheFloorSuffices | apps/id-service/src/lease/etcd-lease-store.ts:153-166 | the same in every run in which no raise that goes through brings the floor down, however late raises arrive |
| LeasePrompt.PromptRaisesSuffice | apps/id-service/src/lease/etcd-lease-store.ts:153-166 | the same in every run in which a raise seen to fail by a caller that lives on has landed by then or never will |
| LeaseSafety.TenuresStampInOrder | packages/id-generator/src/node-lease.ts:139-143 | ids of a later tenure of a node are stamped after all ids of an earlier one |
| LeaseSafety.FloorCoversEveryHolder | apps/id-service/src/lease/etcd-lease-store.ts:59-81 | a node's floor is at least the ceiling of every process still believing it holds it and every stamp on it |
| LateRaise.LateRaiseIsHarmlessIffNotBelowCeiling | apps/id-service/src/lease/etcd-lease-store.ts:153-166 | after a raise lands under a live holder short of its ceiling, no continuation repeats an id if and only if the raise is not below that ceiling |
| LateRaise.LateRaiseIssuesAnIdTwice | apps/id-service/src/lease/etcd-lease-store.ts:161-164 | a run of the store's own calls, with a 300 second TTL, in which one late raise makes two processes hand out the same id |
| LeaseTiming.TimedNextInv | packages/id-generator/src/node-lease.ts:118-171 | in every timed step a holder's lease is kept for a TTL past its anchor, and until it has lapsed the node is the holder's in etcd |
| LeaseTiming.OneHolderInTime | packages/id-generator/src/node-lease.ts:203-218 | two holders of one node are never both inside the TTL of their anchors |
| LeaseTiming.IdsPrecedeTheLapse | packages/id-generator/src/node-lease.ts:203-218 | in every run with paced clocks each id is out by the margin before the end its lease was given and before the lease lapses |
| LeaseTiming.TenuresDoNotInterleave | packages/id-generator/src/node-lease.ts:203-218 | in every such run, once a later tenure of a node has handed out an id no earlier one does |
| FloorLift.ChunkLifts | apps/id-service/src/lease/lift-floors.ts:48-58 | a chunk that still matches lowers nothing, lifts its nodes to the instant, and changes no held node |
| FloorLift.FloorLifter.LiftChunk | apps/id-service/src/lease/lift-floors.ts:48-58 | one transaction lifts its nodes, or, when a guard refuses, leaves the keyspace exactly as the others left it, a node of it being held or its floor written since; what the next chunk read stays valid |
| FloorLift.FloorLifter.LiftAll | apps/id-service/src/lease/lift-floors.ts:48-59 | the chunks together lift every leasable node, each floor newer than where the lift began, or stop at a failure or a conflict |
| FloorLift.FloorLifter.LiftFloors | apps/id-service/src/lease/lift-floors.ts:23-73 | on success every leasable node is floored at the instant or above, the keyspace is marked and a settle time asked for has passed since the keyspace was found empty; a marked keyspace, if so asked, and one with a held node are left as found; every refusal is true of the keyspace; wherever it stops, no node's base fell |
| FloorLift.FloorLifter.RequireSettled | apps/id-service/src/lease/lift-floors.ts:75-96 | passes only when the keyspace was seen empty a full settle time ago, and otherwise names what is left of it |
| LiftSafety.LiftKeepsInv | apps/id-service/src/lease/lift-floors.ts:16-22 | while revisions go on, the lift re-establishes the uniqueness invariant under processes, half-done operations and transactions on their way, if nothing was or can be stamped above the new floors |
| LiftSafety.LiftIsSafeIffNoCeilingAbove | RUNBOOK.md:910-915 | while revisions go on, no id is repeated after the lift if and only if no holder's ceiling is above its node's new floor |
| Renumbering.StepMirrors | apps/id-service/src/lease/etcd-lease-keyspace.ts:21-23 | revisions matter only by which are equal: every step of a fleet on low revisions is a step of the one they are counted on from, if nobody acts for a generation still to come |
| LostKeyspace.LiftedVolumeIsSafe | RUNBOOK.md:908-917 | a keyspace lost whole and lifted on a new volume, whatever its old holders did meanwhile, repeats no id if no ceiling is above the new floors and nobody acts for a generation above the new revision |
| RestartedRevisions.HolderAboveReissues | apps/id-service/src/lease/etcd-lease-store.ts:59-65 | for every holder of a generation above the revision, a run in which a new claim gets that generation, the holder renews it as its own and both stamp |
| RestartedRevisions.NewVolumeIsSafeIff | RUNBOOK.md:908-917 | after the lift of a new volume no id is repeated if and only if no ceiling is above its node's floor and nobody acts for a generation above the volume's revision |
| NewVolumeRun.NewVolumeIssuesAnIdTwice | RUNBOOK.md:906-917 | a run from an empty fleet over two volumes lifted alike, the second after every TTL, in which both holders of the first generation hand out the same id |
| StoreRely.EveryOtherStepIsForeign | apps/id-service/src/lease/etcd-lease-store.ts:113-166 | every step of the fleet but the process's own calls, and its own failed transactions landing late, is one its store allows other clients |
| FloorLift.EveryStepIsSteadfast | apps/id-service/src/lease/etcd-lease-store.ts:59-166 | no step of the fleet takes back what a node guarantees its next holder, which is what the lift relies on |
| ReservationFence.AppliedForGood | apps/inventory-service/src/modules/inventory/domain/reservation-order-fence.ts:17-38 | once a command was applied to an order, no sequence of commands ever lets it be applied again |
| ReservationFence.TerminalRefusesAll | apps/inventory-service/src/modules/inventory/domain/reservation-order-fence.ts:17-38 | released, fenced and restocked are exactly the statuses nothing can be applied to |
| ReservationFence.CommitExcludesRelease | apps/inventory-service/src/modules/inventory/domain/reservation-order-fence.ts:25-33 | an order is committed or released, never both |
| ReservationFence.IdempotentInItsOwnOutcome | apps/inventory-service/src/modules/inventory/domain/reservation-order-fence.ts:17-38 | a command is answered as already done exactly in the statuses the command itself leaves |
| ReservationFence.AppliesOnlyAfter | apps/inventory-service/src/modules/inventory/domain/reservation-order-fence.ts:17-38 | what must have been applied, and what must not, for a command to apply: try before commit or a real release, commit before restock |
| StockInvariant.TotalsMoved | apps/inventory-service/src/modules/inventory/infrastructure/stock.repository.ts:203-245 | a move shifts exactly its quantity between the totals of the two line statuses |
| StockInvariant.CarryKeepsInv | apps/inventory-service/src/modules/inventory/infrastructure/stock.repository.ts:26-36 | each of the four moves keeps reserved equal to the held lines, lines in step with headers, and 0 <= reserved <= on hand |
| StockInvariant.AdminKeepsTotals | apps/inventory-service/src/modules/inventory/infrastructure/stock-admin.repository.ts:39-86 | admin writes and the seed keep the same |
| StockInvariant.RunKeepsInv | apps/inventory-service/src/modules/inventory/application/inventory-participant.service.ts:54-141 | so does every command, refused or not |
| StockInvariant.TryHoldsAllOrNothing | apps/inventory-service/src/modules/inventory/application/inventory-participant.service.ts:61-82 | a first try holds every variant it names, with a header that records until when, exactly when each has enough available, and otherwise leaves no trace, not even a header |
| StockInvariant.TopUpKeepsInv | apps/inventory-service/src/database/stock-top-up.ts:70-95 | the seed keeps the invariant and touches no row that was there |
| StockInvariant.SettlingNeverBreaksAConstraint | apps/inventory-service/src/modules/inventory/infrastructure/schema/stock.schema.ts:44-48 | commit, release, restock and the sweep never meet a CHECK; they are refused exactly when a version column is used up |
| StockInvariant.HeldStockCanBeSettled | apps/inventory-service/src/modules/inventory/infrastructure/schema/stock.schema.ts:44-48 | so at any moment of any run of positive requests whatever is held can be committed, released or restocked |
| StockInvariant.SupplyStep | apps/inventory-service/src/modules/inventory/infrastructure/stock.repository.ts:26-36 | one command changes on hand plus committed only by an admin or seed write, less what a restock loses to the clamp |
| StockInvariant.Conservation | apps/inventory-service/src/modules/inventory/infrastructure/stock.repository.ts:188-245 | the same over every run, so what is committed never exceeds what was supplied |
| StockInvariant.EachCommandAppliesOnce | apps/inventory-service/src/modules/inventory/application/inventory-participant.service.ts:120-141 | over every run with duplicates, reordering and rollbacks each command moves an order's stock at most once, and never both commit and release |
| StockInvariant.TerminalOrderIsInert | apps/inventory-service/src/modules/inventory/application/inventory-participant.service.ts:132-135 | a fenced, released or restocked order never changes anything again |
| LockOrder.PrecedesIsStrictAndTotal | apps/inventory-service/src/modules/inventory/infrastructure/stock.repository.ts:60-61 | the comparison the rows are sorted by is a strict total order |
| LockOrder.SortedInOrder | apps/inventory-service/src/modules/inventory/infrastructure/stock.repository.ts:100-100 | sorted lines visit rows in lock order |
| LockOrder.SortedKeepsFirst | apps/inventory-service/src/modules/inventory/infrastructure/stock.repository.ts:69-73 | sorting changes neither which variants are held nor how many, a variant named twice keeping the first line |
| LockOrder.FirstNamedCounts | apps/inventory-service/src/modules/inventory/infrastructure/stock.repository.ts:69-73 | an order asks for exactly the variants its lines name, each in the quantity of the first line to name it |
| StockRepositories.EveryWriteBumpsTheVersion | apps/inventory-service/src/modules/inventory/infrastructure/stock.repository.ts:130-135 | every command that changes a row raises its version and no row is ever deleted, so equal versions mean equal rows |
| StockRepositories.Transaction.UpdateIf | apps/inventory-service/src/modules/inventory/infrastructure/stock.repository.ts:166-184 | the CAS wins exactly when the row as it is now has the version read, enough available and no hold yet |
| StockRepositories.StockRepository.HoldUnderLock | apps/inventory-service/src/modules/inventory/infrastructure/stock.repository.ts:62-88 | one line is held once, already held, or refused for a reason that is true of the locked row, or because time ran out; a missing row first |
| StockRepositories.StockRepository.ReservePessimistic | apps/inventory-service/src/modules/inventory/infrastructure/stock.repository.ts:54-90 | success holds exactly the unheld variants, each row moved once from its value at commit; a refusal is true of a line and the rows then; never contention |
| StockRepositories.StockRepository.CasReserve | apps/inventory-service/src/modules/inventory/infrastructure/stock.repository.ts:130-186 | a lost CAS means the version moved, at most maxRetries + 1 are tried, and contention is reported only when enough is available and others wrote the row once for each try |
| StockRepositories.StockRepository.ReserveOptimistic | apps/inventory-service/src/modules/inventory/infrastructure/stock.repository.ts:92-106 | success leaves exactly what the locked form would, on the rows as they are at commit; a refusal is true of a line and the rows then |
| StockRepositories.StockRepository.PendingInOrder | apps/inventory-service/src/modules/inventory/infrastructure/stock.repository.ts:204-217 | exactly the order's lines in the given status, each once, in lock order |
| StockRepositories.StockRepository.MoveLines | apps/inventory-service/src/modules/inventory/infrastructure/stock.repository.ts:203-245 | flips every pending line and moves its stock once, whatever commits in between; gives up only when time runs out or a row cannot take the move |
| InventoryParticipants.InventoryParticipant.TryReserve | apps/inventory-service/src/modules/inventory/application/inventory-participant.service.ts:54-90 | with either strategy the answer and the tables are those of the atomic try at commit; any other answer leaves the tables as the others left them and is true: time ran out, a row of the order cannot take the hold, or, in the optimistic form only, others wrote an available row more often than it is retried |
| InventoryParticipants.FenceAndStockDecideTry | apps/inventory-service/src/modules/inventory/application/inventory-participant.service.ts:54-90 | with time left and versions not used up, a try under a held header is reserved, under another refused, and without one reserved when every variant named has enough and out of stock when one has not, unless its retries ran out |
| InventoryParticipants.InventoryParticipant.RunCommand | apps/inventory-service/src/modules/inventory/application/inventory-participant.service.ts:120-141 | the same for commit, release and restock, including the fence written when there is no header; it throws only when time ran out or a row cannot take the move |
| InventoryParticipants.HeaderDecidesCommand | apps/inventory-service/src/modules/inventory/application/inventory-participant.service.ts:120-141 | with time left and versions not used up, a command is applied exactly when the header says it is due, already applied when it says it is done, and refused otherwise |
| InventoryParticipants.InventoryParticipant.ReleaseLapsed | apps/inventory-service/src/modules/inventory/application/release-lapsed-holds.use-case.ts:40-71 | only held orders past their deadline become released, with their held lines; any other order scanned was locked or not past its deadline, or its try failed for want of time or of a version |
| StockSchedule.CommitIsRun | apps/inventory-service/src/modules/inventory/application/inventory-participant.service.ts:61-77 | a transaction's commit is its atomic command on the tables at that moment |
| StockSchedule.ScheduleIsRun | apps/inventory-service/src/modules/inventory/infrastructure/stock.repository.ts:54-245 | every interleaving of transactions takes the tables through a run of atomic commands |
| StockSchedule.OthersKeepRows | apps/inventory-service/src/modules/inventory/infrastructure/stock.repository.ts:133-135 | in every schedule a row only changes with a higher version, which is what the CAS relies on |
| StockSchedule.NoDeadlock | apps/inventory-service/src/modules/inventory/infrastructure/stock.repository.ts:200-238 | in no reachable state do transactions wait for each other in a cycle |
| QueueOptions.BootCheck | packages/messaging/src/inbox/sweep-inbox.ts:52-63 | the boot check passes exactly from seven days on, and then the retention covers the queue's horizon |
| QueueOptions.RetryHorizonMs | packages/messaging/src/queue/queue-options.ts:34-38 | the loop adds every wait before the last attempt |
| QueueOptions.UncappedHorizon | packages/messaging/src/queue/queue-options.ts:28-38 | below the ceiling that is the base times 2^(attempts-1) - 1 |
| QueueOptions.HorizonWithinCeiling | packages/messaging/src/queue/queue-options.ts:29-38 | no ladder rides out more than the ceiling for each of its waits, and waits the ceiling once it would pass it |
| MessageDelivery.UnclaimedInsideWindowIsUnapplied | packages/messaging/src/queue/dead-letter.replay.ts:139-157 | no claim and born inside the window means never applied |
| MessageDelivery.NextKeepsOnce | packages/messaging/src/inbox/sweep-inbox.ts:37-63 | with retention for the horizon and the longest lag, the claim of an applied effect outlives every job there is or may come to be |
| MessageDelivery.AppliedAtMostOnce | packages/messaging/src/queue/domain-event.processor.ts:47-68 | through late publishes, re-runs, redeliveries, crashes, sweeps and unforced replays the effect then commits at most once |
| MessageHazards.AppliedTwiceIffRetentionIsShort | packages/messaging/src/inbox/sweep-inbox.ts:48-63 | a run within the horizon and the lags applies the effect twice if and only if the retention is below the horizon and the longest lag together |
| MessageHazards.BootMinimumLeavesNoRoom | packages/messaging/src/inbox/sweep-inbox.ts:52-63 | at the minimum the boot check accepts, any lag lets an effect be applied twice |
| MessageHazards.DaysAboveTheMinimumAreRoom | RUNBOOK.md:343-351 | for every retention that boots, the lag it covers is exactly what it has above seven days |
| MessageHazards.FailedJobAppliesTwice | RUNBOOK.md:351-351 | for every retention short of horizon and failure lag, a run in which a failed job is run again within its week and the effect is applied twice |
| MessageHazards.ForceIsSafeIffNeverApplied | packages/messaging/src/queue/dead-letter.replay.ts:146-157 | after a forced lookup no unforced run within the bounds applies the effect twice if and only if it was never applied |
| MessageDelivery.NoEventIsLost | packages/messaging/src/outbox/outbox-relay.ts:61-133 | an appended event is always unpublished, on the main queue or its failed set, a dead letter, or applied |
| MessageHazards.CarefulIffNeverLost | packages/messaging/src/queue/dead-letter.replay.ts:165-189 | a step out of a kept state is careful if and only if no careful run from there, with crashes anywhere, has the event nowhere |
| MessageHazards.LateRelayAppliesTwice | packages/messaging/src/outbox/outbox-relay.ts:31-35 | for every retention short of the horizon and the age of the rows published again, a run in which a relay back after its crash has the effect applied twice |
| MessageHazards.ForcedReplayAppliesTwice | packages/messaging/src/queue/dead-letter.replay.ts:33-34 | for every sufficient retention, a run within the bounds up to a forced lookup and on from it in which the effect is applied twice |
| MessageHazards.ReplayWhileRoutingLoses | packages/messaging/src/queue/dead-letter.ts:61-70 | a reachable state in which the router removes a dead letter a replay has looked up, from where a careful run loses the event |
| DeadLetterReplay.GuardBranches | packages/messaging/src/queue/dead-letter.replay.ts:139-163 | each answer in terms of the envelope, the claim and the dates: force never gets past a claim, only force gets past the window, and a dry run previews exactly what a run would replay |
| DeadLetterReplay.GuardIsTheLookup | packages/messaging/src/queue/dead-letter.replay.ts:139-157 | the guard passes an entry exactly when the delivery machine takes its lookup step |
| DeadLetterReplay.UnforcedReplayIsUnapplied | packages/messaging/src/queue/dead-letter.replay.ts:139-157 | at any moment of a run within the bounds, an entry an unforced replay puts back, or would, was never applied |
| DeadLetterReplay.DeadLetterQueue.ReplayOne | packages/messaging/src/queue/dead-letter.replay.ts:114-193 | the entry leaves the queue exactly when its message is back on the main queue as a new job; unforced, only if its event occurred within the retention, and it is skipped for its age only if not |
| DeadLetterReplay.DeadLetterQueue.ReplayDeadLetters | packages/messaging/src/queue/dead-letter.replay.ts:58-112 | the paging loop ends and equals one scan: each entry once, stopping right at the limit, exactly the replayed ones gone, and each of those back on the main queue |
| DeadLetterReplay.HandledIs | packages/messaging/src/queue/dead-letter.replay.ts:71-105 | where that scan stops: at the end, or at the entry that makes the limit |
| DeadLetterReplay.KeptOrReplayed | packages/messaging/src/queue/dead-letter.replay.ts:65-68 | every entry handled is either still in the queue or counted as replayed |
| OutboxRelays.OutboxRelay.LockUnpublished | packages/messaging/src/outbox/outbox-relay.ts:136-149 | the oldest unlocked unpublished rows of the kind, up to the limit |
| OutboxRelays.OutboxRelay.RunOnce | packages/messaging/src/outbox/outbox-relay.ts:55-134 | a row is marked exactly if it was sent, a row without a route is charged once and stays unpublished, and no other row changes except refused ones; only unlocked unpublished rows are taken up; unrouted rows never displace routed ones; below three refusals every routed row is tried |
| OutboxRelays.ChargedOnlyOnProof | packages/messaging/src/outbox/outbox-relay.ts:120-130 | a routed row is charged exactly when refused in a tick that got something through; an outage charges none |
| DomainEventProcessors.DomainEventProcessor.Process | packages/messaging/src/queue/domain-event.processor.ts:38-101 | a duplicate exactly when a claim was there before, even if preparing failed; claim and effect commit together exactly when the claim was free and both succeed, or nothing changes |
| DomainEventProcessors.OutcomeIsProcessed | packages/messaging/src/queue/domain-event.processor.ts:56-68 | processing a delivery is the step the delivery machine takes |
| SwrCache.AnswersAreRebuiltAndRecent | apps/api/src/shared/cache/swr-cache.service.ts:78-158 | every answer is a rebuild's value, from Redis within soft TTL, stale window and jitter, and within the soft TTL if fresh |
| SwrCache.StoredAnswersThroughItsWindow | apps/api/src/shared/cache/ttl-policy.ts:25-31 | a value stored answers for the soft TTL and the stale window, fresh for the soft TTL from its rebuild, unless replaced or evicted |
| SwrCache.OneHolderPerLease | apps/api/src/shared/cache/single-flight.lock.ts:39-48 | two holders never both have a running lease |
| SwrCache.OnlyTheHolderFreesItsLock | apps/api/src/shared/cache/single-flight.lock.ts:16-23 | a lock in force goes only by its own holder's release |
| SwrCache.WaitForEnvelope | apps/api/src/shared/cache/swr-cache.service.ts:270-296 | a waiter stops at a value, an outage, a free lock or its deadline, sleeps a polling interval at a time, and never past the deadline |

## Left out

- The wire forms: JSON of owner records, envelope field checks, trace context, metrics, logs and health probes carry no modelled state.
- LeaseKeeper and the sweep schedulers: only their contract, that operations of one process do not overlap, is used.
- etcd, Redis, BullMQ and Postgres themselves: each is an atomic store with the semantics the code relies on.
- EtcdLeaseStores.EtcdLeaseStore.Acquire: proved for transactions whose lost reply means applied or never, as the store's own comment on retries takes it; a claim of its own landing later is the case `StoreRely` names, and only uniqueness covers it.
- RestartedRevisions.NewVolumeIsSafeIff: the lost volume's leases go with it; a keyspace wiped by hand with leases left alive is `LiftSafety`, which takes the loss and the lift as one step.
- LeaseTiming.IdsPrecedeTheLapse: a step happens at one instant, and that a clock kept pace is a property of the host.
- SnowflakeGenerators.SnowflakeGenerator.Generate: real time does not bound the spin; its bound is the number of looks at the clock.
- StockSchedule.NoDeadlock: covers every command and single-row admin write; waits of seeds on each other's uncommitted inserts have no model.
- InventoryParticipants.InventoryParticipant.TryReserve: that time ran out says that a statement of the transaction would find it up, not which; minting the reservation ids comes before it.
- InventoryParticipants.InventoryParticipant.ReleaseLapsed: the query for lapsed orders and its batch limit are the list passed in; order deadlines only abort.
- Reservations written by the legacy in-transaction port, which have no header, and the minting of reservation ids.
- The update of a line that loses its status CAS under the order's header lock: it cannot happen there, so the model has no branch for it.
- Listing the catalog over HTTP before the seed; the seed itself is the insert-only command.
- MessageDelivery.AppliedAtMostOnce: one clock for queue, inbox and producer, one replay run at a time, and a duplicate delivery that waits for a concurrent claim is one that comes after it.
- MessageDelivery.NoEventIsLost: rests on `Careful`, which is exact; the count limit on failed jobs is treated like their age limit.
- DeadLetterReplay.DeadLetterQueue.ReplayDeadLetters: no other writer of the dead-letter queue during the run.
- Handlers' work before the claim and after the commit is deliberately not exactly-once and has no model.
- Codecs of cached values: an entry that does not decode is a miss.
- Checkout saga, payments, media, search, mail, authentication, cart, load shedding and request validation.
