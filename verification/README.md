# stplr, modelled in Dafny

stplr is a sharded, replicated key/value store. This project models its concurrent and durable
parts and proves properties of them over all inputs, all runs and all interleavings. Nothing here
executes stplr; the theorems are about the model.

Check the project with `dafny verify dfyconfig.toml`.

## What is modelled

- **Online rebalance** (`Migration`, `MigrationInvariant`, `MigrationClients`, `MigrationTask`,
  `MigrationTheorems`, `MigrationSmooth`, `MigrationTorn`, `MigrationProgress`, `ClusterPlacement`): a transition
  system whose steps are the lock-protected accesses of the code. A client operation enters the
  gate, reads the overlay, then the partitioner, writes the primary, then each replica. The
  migration installs the overlay and, chunk after chunk, freezes, drains, exports, imports, cuts
  over, drops, unfreezes and journals, then commits one access at a time. It can be interrupted at
  every await point. The proof is a forward simulation by one plain map that changes only at
  primary writes.
- **Where its hypotheses bite** (`MigrationLapses`, `SmallRuns`, `MigrationRestart`,
  `RestartHistory`, `Races`, `MigrationRivals`, the end of `MigrationTorn`): the same system with one
  hypothesis dropped, the runs that then go wrong, and exactly when they do.
- **Gate** (`Gates`, `GateWakeups`): the freeze/drain gate, as an object and as a system of callers
  sleeping on the watch channel.
- **Placement** (`Words`, `Mixing`, `Ranking`, `Racks`, `Placement`, `PartitionerObject`, `Reshard`): the
  32-bit hash and score, the stable ranking, rack-aware picking and the reshard planner.
- **Ingest queue** (`IngestWrites`, `Ingest`, `IngestObject`): the write-ahead log with crashes,
  replay and trimming.
- **Operations** (`Values`, `Operations`): what each data operation does to an object and answers.
- **Stores** (`Timed`, `Nested`, `MemoryObject`, `ExpiryKeys`, `LmdbObject`, `StoreLockstep`,
  `Shards`, `ShardMigration`): both stores as objects that refine one map with expiry times, and the
  migration's jobs carried out by shards on such stores.
- **Scans** (`KeyOrder`, `Scans`, `PagedScans`, `ClusterScans`, `Partitions`): cursor scan, bucket
  scan, merged cluster pages and the parallel partition read.
- **Leases** (`Leases`): the history of one arbiter shard.
- **Java JSON** (`Json`, `JsonGrammar`, `JsonRoundTrip`, `JsonClient`): parser and writer over UTF-16 units, against
  JSON documents in any layout.

## Hypotheses of the rebalance theorems

They are guards of the transition system or parameters, and the code relies on each:

- Shard calls succeed and no node is marked down; clients exist for the old and the new members.
- Memberships are non-empty, have no duplicates, and come from a universe of nodes with distinct
  32-bit hashes.
- A migration starts from the committed membership, and after an interruption the next call
  resumes. `RestartInsteadOfResume` and `RollBackInsteadOfResume` say exactly which keys are
  answered wrongly right after a call to other members and back to the committed ones,
  `RestartLeavesFrozen` and `RestartFollowed` say what carrying the former on does, and there are
  runs in which answers are wrong.
- The process does not die during a migration (`CrashAnswersIff` says exactly what that costs with a
  durable journal, as `src/journal.rs:3-6` intends; the journal in the repository is in memory).
- The rack map and the replication target are fixed.
- Keys are in managed collections and have no expiry (`CopyCarriesReads` says why).
- No two mutators are in flight on one key (`RivalsDisagreeIff` says exactly which pairs can leave
  the replicas apart, `RivalsFromTheStart` gives a run). Operations run to their end.

The model allows more than the code does where that is simpler: a chunk is any non-empty set of
the moving buckets that are not done, and a chunk's copies and drops run in any order. An
interrupted chunk stays frozen, as it does in the code, until the migration is resumed.

Strings are sequences of code points, whose order is the byte order of their UTF-8 encoding. The
clock, the outcome of a sink call and Java's whitespace test are parameters. Integers are
unbounded except where the code's wrap-around matters: hashes and scores are 32-bit vectors and
`incr` wraps at 64 bits.

## Where the code and its comments differ

The model follows the code.

- `src/ingest.rs:12` calls the log append-only; `drain` trims it after every batch (line 204). A
  reopen can therefore find it empty with the cursor moved, and then numbers new writes from 1,
  below the cursor, against the promise at lines 79-80 that an accepted write survives
  (`ReopenContinuesNumbering`, `BadReopenSkipsWrites`, `BadReopenLosesAWrite`,
  `BadReopenIsReached`).
- `src/store.rs:69` and `src/ingest.rs:185` promise at most `limit` results; both loops look at the
  limit after adding, so a limit of 0 gives one.
- `src/store.rs:111` has a sweep return how many entries it dropped; the LMDB store also counts
  expiry entries whose objects a clear has already removed (`SweepCountsAgreeIff`).
- `src/cluster.rs:251-252` has a scan return no cursor when it is drained; behind HTTP a shard cuts a
  page at 10000 keys (`src/net.rs:362`), so that a larger limit ends the scan early
  (`CompleteIffWithinCap`). The coordinator's route keeps within the cap (`src/coord.rs:203`).
- `src/lmdb.rs` makes an expiry key of collection, NUL and id (lines 79-81), which is ambiguous for
  collection names with a NUL (`SplitsBackIff`). No database can be opened under such a name, but
  `expiry_of` opens none and gives another object's expiry (`NulNamesDiverge`).
- `src/cluster.rs:516-521` takes a call back to the committed members for a call with nothing to do
  and leaves an interrupted migration's overlay installed (`RollBackInsteadOfResume`).
- `src/lease.rs` lets a holder renew for less than it had; windows of different holders are disjoint
  exactly as long as nobody does (`DisjointIffNeverShortens`).

## Model

| member | source | states |
|---|---|---|
| `MigrationTheorems.RunsAnswerLikePlainMap` | src/cluster.rs:333-454 | over every interleaving of gated get, put, delete, set_add, set_remove, cas and incr with every migration step, each operation answers what one plain map would |
| `MigrationTheorems.PrimaryHoldsPlainValue` | src/cluster.rs:194-207 | in every reachable state the routed primary of a key whose bucket is not frozen holds exactly the plain map's value, interrupted migrations included |
| `MigrationSmooth.PrimaryAlwaysCurrent` | src/cluster.rs:548-618 | in every state of a run without an interruption the current primary of every managed key holds the plain map's value, also while its bucket is frozen, copied, cut over and dropped |
| `MigrationSmooth.MigrationStepsStutter` | src/cluster.rs:548-618 | so in runs without an interruption no migration step changes what the current primary of any key holds, even where it changes the primary |
| `MigrationTheorems.QuiescentPlacement` | src/cluster.rs:513-618 | whenever no migration is under way and nobody is in flight, each bucket's entries are on exactly its owners under the committed membership, all agreeing with the plain map, routing is that membership's, and nothing is frozen or counted |
| `MigrationTheorems.QuiescentIsOpen` | src/cluster.rs:559-607 | so whatever was interrupted before, the gate is open whenever nothing is under way and nobody is in flight |
| `MigrationTheorems.RunFrozen` | src/cluster.rs:559-610 | in every state of every run only buckets that the migration under way is still to move are frozen, none without a migration and none during the commit |
| `MigrationTheorems.SameHistorySameEnd` | src/cluster.rs:501-506 | a migration interrupted at any await point, also inside a chunk, and resumed any number of times with traffic in between ends in the same placement and routes as one that was not |
| `MigrationTheorems.RoutingContinuity` | src/cluster.rs:526-534 | installing the overlay, each access of the commit and removing the overlay change the owners of no bucket; only a cut-over does, for its own chunk; resuming re-routes frozen buckets at most |
| `MigrationTheorems.GateExclusion` | src/cluster.rs:559-607 | in every reachable state the in-flight count of a bucket is its number of live tokens, no zero is kept, and from the end of the drain to the unfreeze no token exists for the chunk |
| `MigrationTheorems.RoutesStayServed` | src/cluster.rs:629-643 | no operation in flight is ever routed to a node without a client, and while the membership is committed none holds a route to a node that is leaving |
| `MigrationTheorems.TaskNeverStuck` | src/cluster.rs:548-617 | the migration always has a next step, except while an operation is still inside the frozen chunk |
| `MigrationProgress.MigrationEnds` | src/cluster.rs:548-617 | from every reachable state with a migration under way and nobody in flight, interrupted or not, some continuation of the run ends it: nobody is in flight, nothing is frozen and the committed members are the new ones |
| `MigrationProgress.StepIsCloser` | src/cluster.rs:548-617 | and every migration step but an interruption brings the end closer, by a rank on unfinished buckets, phases and jobs left |
| `MigrationRestart.RestartInsteadOfResume` | src/cluster.rs:480-483 | calling a rebalance to other members instead of resuming sends a finished bucket to its old primary, which at that point answers correctly if and only if it stayed an owner or there is nothing to answer |
| `MigrationRestart.RestartLeavesFrozen` | src/cluster.rs:513-534 | of the buckets that the interrupted chunk froze, exactly those that do not move between the committed and the new members stay frozen, in every state of the restarted migration and after its commit |
| `MigrationRestart.RollBackInsteadOfResume` | src/cluster.rs:516-521 | calling it back to the committed members clears the journal, removes the other clients and leaves the overlay: nothing can be resumed, frozen buckets stay frozen, any other bucket is still served if and only if it was not cut over or a new owner is a committed member, and a get answers correctly if and only if that holds or there is nothing to answer |
| `MigrationRestart.WriteAfterRollBack` | src/cluster.rs:350-364 | after it a put, delete or set operation answers as ever, and a get then finds what the plain map holds if and only if the bucket is still served or the operation leaves nothing |
| `MigrationRestart.ArbitrateAfterRollBack` | src/cluster.rs:390-424 | after it a compare-and-set or counter reaches the primary if and only if the bucket was not cut over or the new primary is a committed member, and answers as the plain map if and only if that holds or the plain map refuses too |
| `MigrationRestart.ChunkCarries` | src/cluster.rs:578-606 | whatever the nodes hold and in whatever order the jobs run, a chunk takes the old primary's object to the new owners, leaves what they have where the old primary has none, and empties the old owners that are not wanted any more |
| `MigrationRestart.RestartCarriedOn` | src/cluster.rs:480-483 | so the same rebalance called again and carried on over a finished bucket brings the object back if nobody wrote, passes a put on, and undoes a delete if and only if the new primary was no old owner and there was something to delete |
| `RestartHistory.RestartFollowed` | src/cluster.rs:480-534 | for a restart to any other members and any interleaving of operations and migration steps until the key's bucket is drained: what every node holds of the key once the bucket has moved, and exactly when the new primary has what clients last saw at the old one |
| `RestartHistory.HistoryHolds` | src/cluster.rs:390-424 | until then the old primary holds what the operations so far made of the key there, each other old owner what its replication makes of its own copy, up to the one operation still to reach it, and all other nodes what they held |
| `MigrationRestart.RestartLosesAnAnswer` | src/cluster.rs:513-534 | such a state is reached: a run from an empty cluster that puts, moves the key, is interrupted, starts over and gets, ends with the get answering absent |
| `MigrationRestart.RestartUndoesADelete` | src/cluster.rs:513-610 | and one that deletes after starting over and gets after the second move ends with the get answering the deleted object |
| `MigrationRestart.RollBackLosesAnAnswer` | src/cluster.rs:516-521 | and one that is rolled back to the committed members ends with a get that finds no owner with a client and answers absent |
| `MigrationRestart.RestartsOnTheCluster` | src/cluster.rs:513-534 | the three runs under the real hash and ranking, for nodes a and b |
| `MigrationTorn.StalePrimaryIff` | src/cluster.rs:501-506 | in every reachable state, interruptions included, the routed primary of a key holds the plain map's value if and only if there is nothing to hold, no overlay, the bucket is cut over, or the old primary has not dropped it in a chunk that was not unfrozen since |
| `MigrationTorn.StaleIsReached` | src/cluster.rs:501-506 | the exception is reached: a drop, an interruption before the journal is written, and a resume |
| `MigrationTorn.RunTorn` | src/cluster.rs:548-618 | every state of every run satisfies the invariant on torn buckets: a former owner holds the value exactly until it drops it, and what is cut over is complete at the new owners |
| `MigrationTorn.CrashAnswersIff` | src/journal.rs:3-6 | when the process dies with nobody in flight and resumes from the journal with an open gate, a primary answers correctly if and only if there is nothing to answer or the old primary had not dropped the key in a chunk that was not journalled |
| `MigrationTorn.CrashOutsideChunk` | src/journal.rs:3-6 | outside a chunk such a crash is harmless: the whole invariant holds again for the same plain map |
| `MigrationTorn.CrashLosesAnAnswer` | src/journal.rs:3-6 | inside one it is not: a run that puts, drops at the old owner, crashes, resumes and gets ends with the get answering absent |
| `MigrationRivals.RivalsDisagreeIff` | src/cluster.rs:348-454 | two mutators admitted on one key, all of whose owners hold the same object: some interleaving of their accesses leaves two owners apart if and only if their effects do not commute on that object; the gate counts, it does not exclude |
| `MigrationRivals.RivalsFromTheStart` | src/cluster.rs:350-364 | and for two such mutators on an absent object there is a run from the initial state, entries and exits included, that ends with nobody in flight and owners apart |
| `Races.TurnKeepsRace` | src/cluster.rs:350-424 | each access of either mutator keeps the relation between what the replicas hold and what they will hold, in every interleaving |
| `Races.PutsRace` | src/cluster.rs:350-374 | two puts can diverge if and only if their values differ |
| `Races.PutAndDeleteRace` | src/cluster.rs:426-434 | a put and a delete always can, two deletes never |
| `Races.SetAddsRace` | src/cluster.rs:436-444 | two set adds can diverge, in the order of the array, if and only if they add different new members |
| `Races.IncrsRace` | src/cluster.rs:412-424 | two increments of a counter can diverge if and only if one of them is not zero, because outcomes are replicated |
| `Races.CasAndPutRace` | src/cluster.rs:390-408 | a cas and a put can diverge if and only if their values differ and the cas can succeed before or after the put |
| `MigrationTheorems.RunHolds` | src/cluster.rs:513-618 | every state of every run satisfies the inductive invariant for the plain map reached so far |
| `MigrationClients.ClientStepKeeps` | src/cluster.rs:390-424 | entering, reading the overlay, reading the partitioner, the primary write, each replica write and leaving each keep the invariant, and the primary answers as the plain map does |
| `MigrationTask.TaskStepKeeps` | src/cluster.rs:513-643 | every migration step (start, freeze, drain, export, import, cut-over, drop, unfreeze, journal, each access of the commit, abort, resume) keeps the invariant and leaves the plain map as it is |
| `MigrationTask.StartRoutesAlike` | src/cluster.rs:516-534 | the freshly installed overlay routes every bucket as the partitioner did |
| `MigrationTask.CommitRoutesAlike` | src/cluster.rs:614-616 | no access of the commit, nor dropping the overlay after it, changes a route |
| `MigrationTask.ImportKey` | src/shard.rs:113-117 | what an export and import do to one key at one node: the target of a travelling key gets the plain map's value, nothing else changes |
| `MigrationClients.ReplicasWillAgree` | src/cluster.rs:400-422 | after the primary write, doing the replica effect at any other owner yields the new object of the primary |
| `Values.ReplicaAgrees` | src/cluster.rs:399-423 | a replica that starts from the primary's object ends with it: broadcasts are re-applied, cas and incr replicate their outcome, and what is not replicated changed nothing |
| `Operations.PromiseKept` | src/store.rs:119-180 | what the plain map does for each operation, in plain terms: get reads, put replaces, delete removes, cas writes exactly when it finds what it expects, incr adds, set_add and set_remove change exactly their member, and each answers so |
| `Operations.IncrAdds` | src/store.rs:130-141 | a counter at n counted by d answers and holds n + d within 64 bits, and n + d brought back by 2^64 beyond either end |
| `Operations.IncrStarts` | src/store.rs:131-137 | an absent counter counts as 0, a text as the integer it stands for |
| `Operations.IncrRefuses` | src/store.rs:131-137 | what is no 64-bit integer is left alone and not counted |
| `Operations.IncrTwice` | src/store.rs:138 | counting by d and then by e is counting once by their sum, brought back to 64 bits |
| `Operations.CounterText` | src/store.rs:135 | the decimal text of every 64-bit integer, with or without surrounding space, counts as that integer |
| `Operations.DecimalBack` | src/store.rs:135 | and parses to it, with a plus sign too where it is not negative |
| `Operations.ParsesOnlyDecimals` | src/store.rs:135 | and whatever parses is an optional sign and decimal digits |
| `Operations.CasSwapsIff` | src/store.rs:119-126 | a cas writes and answers true if and only if it finds what it expects, else it changes nothing |
| `Operations.SetAddAnswers` | src/store.rs:156-165 | an add answers whether the member was missing and then puts it behind the others, else it changes nothing |
| `Operations.SetRemoveAnswers` | src/store.rs:167-180 | a remove answers whether the member was there, takes all its copies and nothing else, and leaves no empty set behind |
| `Operations.SetRemoveKeepsOrder` | src/store.rs:171 | what a remove leaves keeps its order |
| `ClusterPlacement.PartitionerIsLawful` | src/partitioner.rs:69-112 | with distinct node hashes the partitioner gives the migration all it relies on, racks included |
| `ClusterPlacement.CopiesFollowPlan` | src/cluster.rs:536-576 | a chunk's grouped copies are exactly the planner's copies for its buckets |
| `ClusterPlacement.DropsFollowPlan` | src/cluster.rs:542-575 | a chunk's grouped drops are exactly the planner's drops for its buckets |
| `ClusterPlacement.MovingIsPlanned` | src/cluster.rs:547-552 | the buckets the chunks run over are exactly those the plan mentions |
| `ClusterPlacement.ClusterAnswersLikePlainMap` | src/cluster.rs:513-618 | the plain-map theorem for the real hash, ranking and rack-aware picking, at any replication target |
| `GateWakeups.NoLostWakeupEver` | src/guard.rs:35-101 | in every reachable state a sleeping enter or drain whose condition holds has a newer channel version, or some leave or unfreeze has changed the state and not yet bumped; counts are the tokens held |
| `GateWakeups.WakeupStep` | src/guard.rs:43-101 | each subscribe, look, sleep, wake, leave, freeze, unfreeze and bump keeps that invariant |
| `GateWakeups.SleeperCanFinish` | src/guard.rs:43-55 | from every reachable state such a sleeper is served by at most one pending bump and one turn of its own loop |
| `GateWakeups.CountStep` | src/guard.rs:57-68 | every step keeps counts equal to tokens held, so a leave never underflows |
| `Gates.GateObject.TryEnter` | src/guard.rs:46-51 | a turn of the entry loop takes a token exactly when the bucket is not frozen |
| `Gates.GateObject.Leave` | src/guard.rs:57-68 | gives one token back, keeps no zero count, and bumps |
| `Gates.GateObject.Freeze` | src/guard.rs:71-76 | adds exactly the given buckets to the frozen ones, without a bump |
| `Gates.GateObject.IsDrained` | src/guard.rs:79-87 | true exactly when none of the buckets has an operation inside |
| `Gates.GateObject.Unfreeze` | src/guard.rs:93-101 | removes exactly the given buckets from the frozen ones, and bumps |
| `Placement.BucketScoreInjective` | src/partitioner.rs:34-39 | for each bucket the 32-bit score is injective in the node hash |
| `Placement.ScoreInjectiveInBucket` | src/partitioner.rs:34-39 | for each node hash the score is injective in the bucket, for all 32-bit buckets |
| `Placement.ScoresOfAB` | src/partitioner.rs:34-39 | the scores of nodes a and b in buckets 0 and 1 |
| `Placement.HigherScoreLeads` | src/partitioner.rs:69-98 | of two members the one with the higher score is the primary, in either order and whatever the racks |
| `Placement.PrimariesOfAB` | src/partitioner.rs:69-112 | so b is the primary of bucket 0 and a of bucket 1 |
| `Placement.HashVectors` | src/partitioner.rs:19-26 | the published hashes of the empty text and of foo |
| `Placement.HashOfA` | src/partitioner.rs:19-26 | the hash of a |
| `Placement.HashOfB` | src/partitioner.rs:19-26 | the hash of b |
| `Placement.Units` | src/partitioner.rs:21 | a character is itself, or two surrogates that give it back |
| `Placement.SameBucketIff` | src/partitioner.rs:29-31 | two keys share a bucket if and only if their hashes agree in the low 12 bits |
| `Placement.BucketsOfAB` | src/partitioner.rs:29-31 | the buckets of the keys a and b |
| `Mixing.UnmixMix` | src/partitioner.rs:35-38 | the mixing steps have an explicit inverse |
| `Placement.ScoresDistinct` | src/partitioner.rs:100-108 | the scores of a membership are pairwise distinct in a bucket if and only if its node hashes are |
| `Ranking.RankedStable` | src/partitioner.rs:107-109 | the ranking keeps nodes of equal score in membership order |
| `Ranking.RankedFacts` | src/partitioner.rs:103-111 | the ranking is a permutation of the membership in descending score |
| `Ranking.RankedOrderFreeIff` | src/partitioner.rs:107-109 | the ranking depends only on the set of nodes if and only if no two scores tie |
| `Placement.OwnersOrderFree` | src/partitioner.rs:69-112 | with distinct hashes the owners of a bucket depend on the set of members, not on their order |
| `Placement.OwnersFacts` | src/partitioner.rs:69-98 | owners are distinct members, min(r, n) of them, and the owners at r are a prefix of those at r + 1 |
| `Placement.PrimaryIsWinner` | src/partitioner.rs:69-98 | the primary is the top of the score ranking, whatever the racks |
| `Placement.PlainOwners` | src/partitioner.rs:71-73 | without a rack map the owners are the plain top r of the ranking |
| `Placement.OwnersCoverRacks` | src/partitioner.rs:74-97 | the owners cover min(r, n, failure domains) distinct failure domains |
| `Placement.RacksCovered` | src/partitioner.rs:74-97 | for members that all have a rack the owners are on min(r, n, racks) distinct racks of the rack map |
| `Placement.DomainsCovered` | src/partitioner.rs:74-97 | the same with a member that has no rack counted as a rack of its own |
| `Racks.SpreadPlain` | src/partitioner.rs:71-73 | without racks the preference order is the ranking itself |
| `Racks.SpreadCoversRacks` | src/partitioner.rs:76-96 | any prefix of the preference order covers as many racks as its length and the racks allow |
| `Placement.SameOwnersSameOrder` | src/partitioner.rs:69-98 | if two memberships give a bucket the same owner set then they give it the same owner sequence, racks included, so the primary stays put |
| `Placement.DirectClientRoutesAlike` | src/smart.rs:184-186 | without racks, coordinator and direct client route every key alike whatever order they list the members in |
| `Placement.JoinOnlyMovesToNewcomer` | src/partitioner.rs:100-112 | adding a node gives a bucket no new owner but that node |
| `Placement.LeaveOnlyMovesFromLeaver` | src/partitioner.rs:100-112 | removing a node takes a bucket from no owner but that node |
| `PartitionerObject.HashName` | src/partitioner.rs:19-26 | the loop over UTF-16 units computes the 32-bit FNV-1a hash |
| `PartitionerObject.HashAll` | src/partitioner.rs:102 | one FNV-1a hash per member |
| `PartitionerObject.SortByScore` | src/partitioner.rs:107-109 | the stable insertion sort by score is the ranking, for any list of members |
| `PartitionerObject.Partitioner.SetNodes` | src/partitioner.rs:100-112 | hashes every member once and sorts them in each bucket: every bucket then lists all members, repeated ones included, in descending score, ties in membership order, and the rack map is kept |
| `PartitionerObject.Partitioner.Pick` | src/partitioner.rs:69-98 | the two passes equal a closed form for every list, repeated members included: without racks the list itself, else the first node per rack in rank order and then the list, each once; the first min(r, n) of it |
| `Placement.PlacedIsSpread` | src/partitioner.rs:74-97 | over a ranking without duplicates that closed form is the rack leaders followed by everybody else, with or without racks |
| `PartitionerObject.Partitioner.FirstPerRack` | src/partitioner.rs:76-85 | pass one picks the rack leaders in rank order, up to the count asked for |
| `PartitionerObject.Partitioner.FillRest` | src/partitioner.rs:86-96 | pass two completes the leaders with the other nodes in rank order, each once, up to the count asked for |
| `PartitionerObject.Partitioner.OwnersOfBucket` | src/partitioner.rs:133-135 | the owners of a bucket in the object's membership and racks, on as many distinct racks of its rack map as their number allows |
| `PartitionerObject.Partitioner.ReplicaSet` | src/partitioner.rs:127-129 | the owners of a key's bucket |
| `Reshard.PlanReshard` | src/reshard.rs:28-78 | for any two member lists the bucket loop lists every copy and drop of the two exactly as often as the owner lists call for it and nothing else, each once if the members are, and counts exactly the buckets whose owner set changed, or none if there were no members before |
| `Reshard.CountedOnce` | src/reshard.rs:50-75 | owner lists without duplicates give a plan without duplicates |
| `Reshard.PlanReachesTarget` | src/reshard.rs:50-75 | for every bucket, (old owners + copy targets) - drops = new owners, every copy starts at an old owner, and copies and drops are the exact differences |
| `Reshard.DiffBucket` | src/reshard.rs:50-75 | one turn of the bucket loop adds that bucket's copies and drops |
| `Reshard.JoinCopiesToNewcomer` | src/reshard.rs:58-65 | when one node joins, without racks and with distinct hashes, every planned copy goes to it |
| `Reshard.LeaveDropsFromLeaver` | src/reshard.rs:66-71 | when one node leaves, without racks and with distinct hashes, every planned drop is from it |
| `Ingest.DrainedMeansAppliedOnce` | src/ingest.rs:59-207 | over every run of enqueue, drain with sink failures, crash at any point and reopen on a non-empty log or an unmoved cursor: when nothing is pending the store equals all accepted writes applied once each in order, sets compared by membership |
| `IngestWrites.ReplayPrefix` | src/store.rs:156-180 | replaying any prefix of a list of writes and then the whole list equals the list alone |
| `IngestWrites.AbsorbAll` | src/store.rs:156-180 | doing first any writes of a list, in any order and number, is invisible once the list is done |
| `IngestWrites.EarlierCopyInvisible` | src/store.rs:156-180 | a write that runs again at the end makes an earlier copy of itself invisible, whatever ran in between |
| `IngestWrites.ActCongruent` | src/store.rs:156-180 | states that a write makes equal are still made equal by it after any other write |
| `IngestWrites.ApplyActs` | src/store.rs:156-180 | the array operations of the store do to the membership of a set exactly what the algebra says |
| `Ingest.StepKeeps` | src/ingest.rs:79-207 | each accept, read, apply, refusal with or without effect, cursor write, trim, crash and reopen keeps the replay invariant |
| `Ingest.TailIsOnDisk` | src/ingest.rs:138-183 | an accepted write is on disk under its number until the durable cursor has passed it |
| `Ingest.BatchIsOldestPending` | src/ingest.rs:106-129 | a drain reads the oldest pending writes without a gap, as many as the limit (0 acting as 1) allows |
| `Ingest.ReopenContinuesNumbering` | src/ingest.rs:70-75 | reopening continues the numbering if and only if the log has an entry or the cursor never moved |
| `Ingest.BadReopenSkipsWrites` | src/ingest.rs:72 | after any other reopen as many writes as the cursor counts are accepted, reported as not pending and passed over by every drain |
| `Ingest.BadReopenLosesAWrite` | src/ingest.rs:72 | so the condition on reopens is necessary: each such run extends to one with nothing pending and a lost write |
| `Ingest.BadReopenIsReached` | src/ingest.rs:188-207 | and the failing reopen is reached: accept one write, drain it fully, crash |
| `IngestObject.IngestQueue.Open` | src/ingest.rs:59-77 | recovers the next number from the last queued key and the cursor from disk |
| `IngestObject.IngestQueue.Enqueue` | src/ingest.rs:81-89 | appends under the next number |
| `IngestObject.IngestQueue.Unapplied` | src/ingest.rs:102-104 | the saturating difference between the latest number and the cursor |
| `IngestObject.IngestQueue.ReadUncommitted` | src/ingest.rs:106-129 | the loop returns the first entries above the cursor, up to the limit |
| `IngestObject.IngestQueue.AppliedPrefix` | src/ingest.rs:146-165 | stopping at the first key past the cursor finds all entries at or below it |
| `IngestObject.IngestQueue.Compact` | src/ingest.rs:141-183 | leaves exactly the entries above the cursor and counts the others |
| `IngestObject.IngestQueue.ApplyBatch` | src/ingest.rs:191-201 | hands a batch to the sink up to the first refusal, each call one step of the transition system |
| `IngestObject.IngestQueue.Drain` | src/ingest.rs:188-207 | is a run of the transition system that applies exactly the writes before the first refusal and moves the cursor to the last of them |
| `StoreLockstep.Lockstep` | src/store.rs:32-188 | after any puts, batches, expiring puts, deletes, clears, sweeps, cas, incr, set operations and clean reopens, with collection names free of NUL, LmdbStore and MemoryStore have given the same answers and hold the same timed map; what sweeps report is compared by SweepAfter |
| `StoreLockstep.SameReads` | src/lmdb.rs:268-276 | and read every object alike at every clock value |
| `StoreLockstep.SameScans` | src/lmdb.rs:292-333 | and scan every collection alike, for every range, limit and clock value: ascending, exactly live keys above the cursor, with the prefix and below the end, all of them or the first limit |
| `StoreLockstep.SweepAfter` | src/lmdb.rs:366-398 | after any commands a sweep reports the due objects in memory and the due expiry entries in LMDB, and the two numbers agree if and only if every due entry's object is there, that is, no clear left it behind |
| `Timed.SweepUnnoticed` | src/store.rs:275-293 | a sweep at time t changes no read at any time from t on |
| `Timed.SweepNoticedEarlier` | src/store.rs:275-293 | an earlier reader notices the sweep if and only if some object expires in between |
| `Timed.ObjectOpsReadPlainly` | src/store.rs:119-180 | at a given clock every object operation acts on the readable contents as on a plain map |
| `MemoryObject.MemoryStore.PutObject` | src/store.rs:236-239 | a plain write stores the value and clears any expiry |
| `MemoryObject.MemoryStore.PutBatch` | src/store.rs:37-41 | puts the items in order |
| `MemoryObject.MemoryStore.GetObject` | src/store.rs:240-245 | an expired object reads as absent |
| `MemoryObject.MemoryStore.ClearCollection` | src/store.rs:258-261 | removes the collection's objects and expiries |
| `MemoryObject.MemoryStore.DeleteObject` | src/store.rs:262-267 | removes the object and its expiry |
| `MemoryObject.MemoryStore.PutObjectAt` | src/store.rs:268-271 | stores value and expiry |
| `MemoryObject.MemoryStore.ExpiryOf` | src/store.rs:272-274 | the recorded expiry |
| `MemoryObject.MemoryStore.SweepExpired` | src/store.rs:275-293 | removes exactly the expired objects and counts them |
| `MemoryObject.MemoryStore.OnObject` | src/store.rs:119-180 | every object operation answers and leaves what is promised of it: cas, incr, set_add and set_remove read, decide and write back |
| `MemoryObject.MemoryStore.ScanRange` | src/store.rs:50-59 | whatever order the hash map has: ascending, exactly live keys above the cursor, with the prefix and below the end, all of them or the first limit |
| `LmdbObject.LmdbStore.Reopen` | src/lmdb.rs:57-71 | recovers the flag from the expiry entries on disk and changes nothing else |
| `LmdbObject.LmdbStore.IsExpired` | src/lmdb.rs:88-91 | the flag's fast path never hides an expiry |
| `LmdbObject.LmdbStore.PutObject` | src/lmdb.rs:235-240 | stores the object and removes its expiry entry, as the reference does, although the expiry database is only touched when the flag is set |
| `LmdbObject.LmdbStore.PutBatch` | src/lmdb.rs:243-267 | one transaction, one look at the flag, same contents as item by item |
| `LmdbObject.LmdbStore.GetObject` | src/lmdb.rs:268-276 | an expired object reads as absent |
| `LmdbObject.LmdbStore.ClearCollection` | src/lmdb.rs:334-342 | empties the collection for readers although its expiry entries stay behind |
| `LmdbObject.LmdbStore.DeleteObject` | src/lmdb.rs:343-353 | removes the object and, flag permitting, its expiry |
| `LmdbObject.LmdbStore.PutObjectAt` | src/lmdb.rs:354-362 | stores value and expiry and sets the flag |
| `LmdbObject.LmdbStore.ExpiryOf` | src/lmdb.rs:363-365 | the recorded entry, which is the object's expiry if and only if the object is there or a clear left no entry behind |
| `LmdbObject.LmdbStore.SweepExpired` | src/lmdb.rs:366-398 | removes exactly the expired objects and counts the due expiry entries |
| `LmdbObject.LmdbStore.ScanRange` | src/lmdb.rs:292-333 | the seek-and-break cursor scan returns exactly the default result for every combination of bounds, limit and expired keys: ascending, live keys within the bounds, all of them or the first limit |
| `LmdbObject.LmdbStore.OnObject` | src/lmdb.rs:235-353 | the trait's read-decide-write operations over this store answer and leave what is promised of them |
| `LmdbObject.SweepCountsAgreeIff` | src/lmdb.rs:366-398 | both stores report the same sweep count if and only if no due expiry entry was left behind by a clear |
| `LmdbObject.ClearThenSweep` | src/lmdb.rs:334-342 | an expiring object in a cleared collection: MemoryStore reports 0, LmdbStore 1 |
| `LmdbObject.NulNamesDiverge` | src/lmdb.rs:79-86 | for every collection name with a NUL, asking for an expiry, which opens no database of that name, gives another object's expiry where the reference gives none |
| `ExpiryKeys.SplitsBackIff` | src/lmdb.rs:79-81 | collection and key are recovered from an expiry key if and only if the collection has no NUL |
| `Shards.Shard.ExportEntries` | src/shard.rs:104-111 | over either store, lists, each once, exactly the live objects of the buckets |
| `Shards.Shard.ImportEntries` | src/shard.rs:113-117 | plain puts in order |
| `Shards.Shard.DropBuckets` | src/shard.rs:120-133 | deletes exactly what an export would list, and counts it |
| `Shards.CopyCarriesReads` | src/shard.rs:104-117 | after a copy the target reads as the source did, and keeps doing so if and only if the object has no expiry |
| `Shards.DropHidesBuckets` | src/shard.rs:120-133 | a drop hides exactly its buckets' objects from every later reader |
| `ShardMigration.CopyIsJob` | src/cluster.rs:578-590 | on stores without expiry, exporting the travelling buckets at the source and importing them at the target is the migration's copy, and no other node's store changes |
| `ShardMigration.DropIsJob` | src/cluster.rs:600-606 | dropping the going buckets at their node is the migration's drop |
| `ShardMigration.RunCopyJob` | src/cluster.rs:578-590 | two shard objects, each over either store, carry out one copy job, and the count is the size of the export |
| `ShardMigration.RunDropJob` | src/cluster.rs:600-606 | one shard object, over either store, carries out one drop job, and the count is what it lost |
| `KeyOrder.PrefixContiguous` | src/lmdb.rs:324-326 | keys that share a prefix are contiguous in key order |
| `KeyOrder.LessIff` | src/lmdb.rs:309-320 | one key is below another if and only if it is a proper prefix of it or is smaller at the first difference |
| `Scans.ScanIsDirect` | src/store.rs:50-59 | a scan is ascending and returns exactly keys above the cursor, with the prefix and below the end, all of them or the first limit |
| `Scans.BoundIsTight` | src/lmdb.rs:302-308 | the lower bound leaves out only keys that cannot match, and lets in only keys above cursor and prefix |
| `Scans.NothingFurther` | src/lmdb.rs:321-326 | past the end bound or at a key without the prefix nothing matches any more |
| `Scans.CursorScan` | src/lmdb.rs:292-333 | seek, walk and break equal filter and take over the live keys: ascending, within the bounds, all of them or the first limit |
| `Scans.DefaultScan` | src/store.rs:50-59 | the result does not depend on the order the entries come in: ascending, within the bounds, all of them or the first limit |
| `PagedScans.ScanBuckets` | src/store.rs:72-97 | the paged loop ends and equals the first keys of the wanted buckets above the cursor; a limit of 0 acts as 1 |
| `Partitions.GroupByPrimary` | src/cluster.rs:288-299 | every bucket is assigned to exactly its primary, once |
| `Partitions.PartitionPlan` | src/cluster.rs:288-308 | lists in node-id order exactly the nodes that are the primary of some bucket, each with its endpoint or an empty one and exactly the buckets it is the primary of, each once |
| `Partitions.PrimaryAtAnyReplication` | src/cluster.rs:294 | the owner at replication 1 is the primary at every replication |
| `Partitions.ReadPartition` | src/smart.rs:260-268 | at every limit the pages of at most 100000 keys, each from the last key of the one before, end and add up to the whole partition in order |
| `Partitions.EveryKeyReadOnce` | src/cluster.rs:281-308 | outside migrations, at any replication, each key of the map is read by exactly one partition of the plan, once, namely its primary's, and nothing else is read |
| `ClusterScans.MergeIsExact` | src/cluster.rs:261-271 | merging the first limit matches of every shard gives the first limit matches of their union |
| `ClusterScans.ScanPage` | src/cluster.rs:253-274 | one page from shards that return at most a given number of keys a call; within that cap it is the first limit keys above the cursor, with the prefix and below the end, over all shards, with a cursor exactly when it is full |
| `ClusterScans.ScanAll` | src/cluster.rs:249-274 | following the cursor ends for every limit and cap; within the cap it reads, ascending, exactly the keys of some shard that have the prefix and are below the end, each once; a limit of 0 reads nothing |
| `ClusterScans.CompleteIffWithinCap` | src/net.rs:361-364 | every content of the shards is read completely if and only if the limit is within the cap |
| `ClusterScans.CompleteIffCovered` | src/net.rs:361-364 | given shards are read completely at a given limit and cap if and only if every page's stretch of the wanted keys is covered by the first cap keys of it on the shards |
| `ClusterScans.PageExactIff` | src/cluster.rs:261-271 | one page is the first limit matches over all shards if and only if each of them is among the first cap of these on some shard |
| `ClusterScans.LastKeyNotScanned` | src/net.rs:541-554 | a shard behind HTTP with any 10001 keys, scanned at a limit of 10001, gives all but the last |
| `Leases.GrantedIff` | src/lease.rs:47-70 | a call is granted if and only if it starts a new term or its caller is the holder; a granted lease names the caller and ends at now + ttl; a refusal shows and keeps the stored lease |
| `Leases.TokenCountsTerms` | src/lease.rs:50-70 | the token rises by exactly one at each new term and never otherwise |
| `Leases.TokensNeverDecrease` | src/lease.rs:50-70 | tokens reported to successive calls never decrease |
| `Leases.OneHolderPerToken` | src/lease.rs:47-70 | all grants with one token name one holder |
| `Leases.WindowsDisjoint` | src/lease.rs:50-70 | with a clock that does not go back and no renewal that ends before the lease it renews, windows granted to different holders never overlap |
| `Leases.DisjointIffNeverShortens` | src/lease.rs:50-70 | and that condition is exact: no renewal shortens if and only if every prefix of the history followed by any one call keeps all windows disjoint |
| `Leases.ShorteningOverlaps` | src/lease.rs:53-56 | after a renewal that shortens, some call starts a window of another holder before an earlier one has ended |
| `Leases.CommonTtlNeverShortens` | src/lease.rs:53-56 | a common time-to-live is enough |
| `Leases.ShorterRenewalOverlaps` | src/lease.rs:53-56 | the smallest history in which windows overlap: 100 ms, renewed for 1 ms, taken over |
| `Leases.LeaseShard.LeaseAcquire` | src/shard.rs:93-101 | grants exactly when the stored lease is absent, over or the caller's own; a grant names the caller, ends at now + ttl and is stored; a refusal answers and keeps the stored lease; its calls form such a history |
| `JsonRoundTrip.ReadsJson` | clients/java/src/org/stplr/Json.java:18-20 | every JSON document (RFC 8259), in any layout and with any escapes, is parsed as the tree it stands for |
| `JsonRoundTrip.DocBack` | clients/java/src/org/stplr/Json.java:35-119 | from any offset of any text, and up to exactly its end |
| `JsonRoundTrip.PieceBack` | clients/java/src/org/stplr/Json.java:92-105 | every character of a string, plain, as a short escape or with four hexadecimal digits, is read as the unit it stands for |
| `JsonRoundTrip.CharsBack` | clients/java/src/org/stplr/Json.java:86-108 | the inside of a string is read up to its closing quote |
| `JsonRoundTrip.HexBack` | clients/java/src/org/stplr/Json.java:102 | four hexadecimal digits of either case are read as their number |
| `JsonRoundTrip.ItemsBack` | clients/java/src/org/stplr/Json.java:72-84 | the items of a list are read in order, whatever whitespace is between them |
| `JsonRoundTrip.MembersBack` | clients/java/src/org/stplr/Json.java:54-70 | the members of a map are put in order, whatever whitespace is between them |
| `JsonGrammar.PutIs` | clients/java/src/org/stplr/Json.java:63 | putting a member sets its key and no other; a new key comes last, an old one stays in its place |
| `JsonGrammar.DoubleIff` | clients/java/src/org/stplr/Json.java:110-114 | the number tokens are exactly the texts of an optional sign, digits with an optional point and an optional exponent, with a digit in each |
| `JsonRoundTrip.WriteSpells` | clients/java/src/org/stplr/Json.java:122-170 | what is written is a spelling by that grammar, without whitespace, |
| `JsonRoundTrip.WrittenMeans` | clients/java/src/org/stplr/Json.java:122-170 | of a document that stands for the tree |
| `JsonRoundTrip.ValueBack` | clients/java/src/org/stplr/Json.java:35-170 | so parsing written text from any offset of any text yields the tree and stops exactly at its end |
| `JsonRoundTrip.WriteThenRead` | clients/java/src/org/stplr/Json.java:18-26 | parse(write(v)) = v for every tree of null, booleans, number tokens, strings, lists and maps |
| `JsonRoundTrip.WriteInjective` | clients/java/src/org/stplr/Json.java:122-170 | no two trees are written alike |
| `JsonRoundTrip.UnitBack` | clients/java/src/org/stplr/Json.java:92-105 | every UTF-16 unit, escaped or not, is read back as itself |
| `JsonClient.Parse` | clients/java/src/org/stplr/Json.java:18-20 | the parser object returns the tree a JSON document stands for |
| `JsonClient.Parser.Value` | clients/java/src/org/stplr/Json.java:40-52 | moves the index and returns, or fails, as the reading of the text says |
| `JsonClient.Parser.ObjValue` | clients/java/src/org/stplr/Json.java:54-58 | moves the index and returns, or fails, as the reading of the text says |
| `JsonClient.Parser.Members` | clients/java/src/org/stplr/Json.java:59-69 | moves the index and returns, or fails, as the reading of the text says |
| `JsonClient.Parser.ArrValue` | clients/java/src/org/stplr/Json.java:72-76 | moves the index and returns, or fails, as the reading of the text says |
| `JsonClient.Parser.Items` | clients/java/src/org/stplr/Json.java:77-83 | moves the index and returns, or fails, as the reading of the text says |
| `JsonClient.Parser.Str` | clients/java/src/org/stplr/Json.java:86-108 | moves the index and returns, or fails, as the reading of the text says |
| `JsonClient.Parser.Num` | clients/java/src/org/stplr/Json.java:110-114 | moves the index and returns, or fails, as the reading of the text says |
| `JsonClient.Parser.Ws` | clients/java/src/org/stplr/Json.java:116-118 | moves the index and returns, or fails, as the reading of the text says |
| `JsonClient.Builder.W` | clients/java/src/org/stplr/Json.java:122-152 | appends exactly the text of the tree |
| `JsonClient.Builder.WArr` | clients/java/src/org/stplr/Json.java:140-150 | appends exactly the text of the tree |
| `JsonClient.Builder.WObj` | clients/java/src/org/stplr/Json.java:127-139 | appends exactly the text of the tree |
| `JsonClient.Builder.WStr` | clients/java/src/org/stplr/Json.java:154-170 | appends exactly the text of the tree |
| `JsonClient.RoundTrip` | clients/java/src/org/stplr/Json.java:18-26 | writing with the builder and parsing with the parser gives the tree back |

## Left out

- Transport and configuration: HTTP, TLS, RESP and binary framing, metrics and the daemon have no invariant of their own; of the endpoints only the page caps are modelled.
- Operations that do not enter the gate during a migration (`mget`, cluster `scan_range`, `bulk_load`, `lease_acquire`): scans and leases are modelled on a stable membership only.
- Node failure: failover, `mark_down` and swallowed shard errors are outside the rebalance model, which assumes that calls succeed.
- Cluster object: the locked fields of `Cluster` are components of the transition system's state, not fields of a Dafny class, because their updates interleave with those of concurrent operations.
- Process crash during a migration: modelled with nobody in flight, the journal intact and a resume as the first call; a crash with operations in flight, or after the commit has cleared the journal, is not.
- Direct client during a rebalance: only its routing on a stable membership without racks is compared.
- LMDB internals: a committed transaction is atomic, a clean reopen finds what was committed, and values survive their JSON encoding; unsynced commits lost in a hard crash, handle caching and snapshots are not modelled.
- IngestObject.IngestQueue.Drain: one drain runs at a time, as the background loop does; the sink's outcomes are a parameter.
- Ingest.DrainedMeansAppliedOnce: compares sets by membership; the order inside an array after a replay is not preserved by the code either.
- Leases.LeaseShard.LeaseAcquire: expiry times do not overflow 64 bits.
- JsonClient.Parser.Str: `\u` escapes take ASCII hexadecimal digits only, where Java also accepts other Unicode digits.
- StoreLockstep.Lockstep: collection names are free of NUL, because LMDB cannot open a database under another name and the store then stops (`expect` at src/lmdb.rs:103-113); the model's LMDB takes any key, where the real one stops at a write under an empty key or one over 511 bytes (`expect` at src/lmdb.rs:140-146), collection, NUL and id counting together for an expiring put (lines 354-359); the numbers returned by sweeps are not among the compared answers, because they can differ, and `SweepAfter` says exactly when.
- StoreLockstep.SameReads: the same about names and keys.
- StoreLockstep.SameScans: the same about names and keys.
- MigrationRestart.RestartCarriedOn: the same members again, and a put, a delete or nothing at all old owners in between; `RestartFollowed` covers any members and any operations.
- MigrationRestart.RollBackInsteadOfResume: the accesses of the commit are taken together as one step, with nobody in flight.
- RestartHistory.RestartFollowed: nobody is in flight at the restart, and the bucket is not frozen there.
- MigrationTheorems.TaskNeverStuck: says only that a next step exists; that the migration ends is `MigrationEnds`.
- MigrationProgress.MigrationEnds: some continuation ends the migration; that a scheduler takes it is not modelled.
- Races.IncrsRace: the counter and both amounts are 64-bit integers.
- JsonRoundTrip.WriteThenRead: numbers are their tokens, over the units the parser accepts in a number; conversion to and from `double`, `NaN`, infinities and the verbatim `Raw` wrapper are left out.
- JsonRoundTrip.ValueBack: numbers are their tokens, as above.
- JsonRoundTrip.ReadsJson: numbers are their tokens, as above; the parser also accepts texts that are no JSON document, and these are not characterised.
- JsonRoundTrip.DocBack: the same.
- JsonClient.Parse: the same.
- JsonClient.Parser.Num: returns the token it read, or fails where `Double.parseDouble` does; the double it stands for is left out.
- JsonClient.Builder.W: trees have no `Raw` node, whose text is appended unread.
- Change feed: a numbered log with per-group read offsets and retention, of the form of the ingest queue but without the replay into a store that makes the latter delicate.
- RBAC: decides each request from a fixed table of grants and keeps no state.
- Go and Python clients: forward each call over HTTP, with the parsing left to their languages' JSON libraries.
