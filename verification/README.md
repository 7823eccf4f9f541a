# CoinCync node: a Dafny model of its chain state machine

CoinCync is a blockchain node with a transparent ledger and a shielded pool. This project models the parts of it that
keep state by hand and must never disagree with the chain:

- **The blockchain state machine** (`chain.dfy` and the modules it builds on). A class holds what the node holds: block
  cache, height cache, tip, statistics, output and key-image set, a Phase-2 store with its checkpoint stack, and the
  database. `AddBlock` and `RollbackToHeight` have the loops of the code. The specification is one fold over the
  canonical chain (`Ledger.StateOf`), and a ghost field names that chain. `Valid()` says that everything the node keeps,
  in memory and on disk, is the fold.
- **Whole histories of one node** (`moves.dfy`, `reach.dfy`, `runs.dfy`, `lapse.dfy`): finality, lock-step of the Phase-2
  stores and how far the block cache reaches, over every sequence of calls. `AddBlock` and `RollbackToHeight` are proved
  to make exactly the moves these theorems are about (`Moves.Apply`, `Moves.Permitted`), and `Runs.Run` adds its calls up
  to a trace of them, up to the one answer that can cost the node its validity.
- **Fork choice across nodes** (`fork_choice.dfy`, `convergence.dfy`): independence of arrival order, first of the
  specification (`ForkChoice.Deliver`), then of two nodes of the class that receive the same valid blocks.
- **The shielded-pool turnstile** (`spark_pool.dfy`, `spark_store.dfy`, `spark_runs.dfy`, `spark_stale.dfy`): the gate in
  front of the pool, the apply behind it, and value conservation with ghost coin values over runs of blocks joined,
  rewound, gone without a rewind and put back, restarts included: exactly when it holds, and runs in which it does not.
- **Smaller pieces**: the state-generation protocol and the virtual clock as interleaved atomic steps
  (`generation.dfy`, `sim_clock.dfy`), the recovery breaker and the block-integrity feed (`breaker.dfy`,
  `integrity.dfy`), the build script's SHA-256 (`sha256.dfy`, `sha256_constants.dfy`,
  `sha256_primes.dfy`), and the signed byte strings and single-use acceptance of audit packages (`compliance.dfy`,
  `bytes.dfy`).

Consensus rules, cryptography and emission are function-valued parameters (`Ledger.Rules`, `SparkPool.Backend`,
`Compliance.Checks`). What is assumed of them is written out once: `Ledger.Sound` (a validated block is fresh, has
distinct transactions with at most 256 transparent outputs each; validation depends on the counters only through outputs
ever created minus outputs disconnected, as at src/consensus/validation.rs:2557-2573, and without its UTXO checks not on
the output set at all, as at src/chain.rs:2277-2289; and only genesis has height 0; `Ledger.SoundIsPossible` shows these can be met),
`SparkPool.Authentic` and `SparkPool.Conserving` (verified tags are the bundle's own, outpoints do not collide, a mint
total is the value of its coins, a spend's inputs are its outputs plus fee plus vout).

`dafny verify dfyconfig.toml` checks the project.

## What the proofs found

- **An accepted reorg is exact if and only if every block it disconnects is cached.** The disconnect loop reads only
  the in-memory cache. `AddBlock` states this as an equivalence. What the cache is certain to hold is exact too:
  every legal cache holds all that any permitted reorg disconnects if and only if the tip is within 57 blocks of the
  highest it has been, or of 144 plus 57 for short chains (`Reach.ReachOfCaches`). Further down a node may or may not
  be lucky, because eviction only starts above 500 cached blocks. `Lapse` drives a node into the unlucky case: 202 main
  blocks and 299 siblings, a rollback to height 144, and then a heavy sibling of the first block is accepted and leaves
  a node whose state is not that of its chain (`Lapse.Strike`).
- **Nothing else costs a node its validity.** Any sequence of calls from genesis is served, and its moves are permitted
  ones, until such a reorg is accepted; the node could tell, because its count of blocks is then no longer the tip's
  height plus one (`Runs.Run`).
- **A valid reorg can be refused one block earlier.** The connect loop looks a block's parent up in the cache only, so
  the fork point's body must be cached as well; from height 144 on that is certain within 56 blocks, not 57
  (`Reach.FullReachOfCaches`, `Reach.RefusedAtTheEdge`). `Lapse.Refuse` is a run that ends with a valid block refused.
- **While the tip never falls, none of this happens**: every call is within reach, the node stays valid, and a block 144
  deep is canonical forever (`Runs.Run`, `Runs.RisingRun`).
- **A failed reorg is a stutter for everything but the shielded contents.** Tip, statistics, height cache, outputs and
  key images come back whatever is cached. The re-apply loops push checkpoints without re-applying payloads, so with all
  bodies cached a Phase-2 store is left with the contents of the fork point; they equal the old contents if and only if no
  disconnected block carried a payload (`Phase2.FailedReorgRestores`; `Phase2.ContentsLost` is a case).
- **Checkpoint depth survives a failed reorg if and only if the store declined no checkpoint and connecting the fork
  pushed none out of the 1000-entry stack** (`Phase2.FailedReorgOutcome`; `Moves.DepthLost` is a case of overflow). Only the
  shielded store declines, at a height not above the last one held. It does so exactly when, after the rewinds, a
  checkpoint above the fork point is still held, and a fork block is connected or a body is put back at or below that
  checkpoint (`Phase2.DeclinesIff`, `Moves.RefusesIff`): a height above the fork point was not disconnected, because
  its body was not cached (`Moves.MirrorRefusesIff`).
- **The Phase-2 stores stay in lock-step while every failed reorg disconnects all heights above its fork point**
  (`Moves.LockStep`), which is certain within reach (`Runs.StoresInStep`). Beyond it they can drift: `Lapse.Drift` is a
  run after which a failed reorg leaves the shielded store 143 checkpoints and its siblings 144.
- **A rollback is not crash-atomic.** Between dropping the height index and saving the record, the database describes
  no chain at all (`Disk.TornRollback`); `RollbackToHeight` states that a rollback that moves the tip writes such a
  database, and only then. The commits of `AddBlock` are atomic.
- **The transaction index relies on transactions not repeating.** Two blocks with the same transaction share one index
  entry. A reorg keeps the index that of the chain if and only if every identifier that is both below and above the fork
  point comes again with the new blocks; a rollback, if and only if there is no such identifier. The index of a chain
  finds every transaction where it is if and only if none is in two blocks. Output keys and key images stop repetition for
  every transaction that has one or the other (`Ledger.MarkedNoRepeat`); a pool-internal send has neither, and is stopped
  by its linking tags.
- **The shielded pool is conserved as long as no checkpoint is pushed below a spent tag.** A rewind drops every tag from
  the checkpoint's height on. On a balanced pool a push keeps every later rewind balanced if and only if no coin of value
  was spent above the tip (`SparkRuns.PushExact`). A tag can stand above the tip only after the tip fell without a rewind,
  because the checkpoint stack was empty or the body was not cached; and then only if a tag or a checkpoint stood at the
  tip's height (`SparkRuns.FallExact`, `SparkRuns.UntiedRun`). Both happen: `SparkStale.RestartRun` and
  `SparkStale.UncachedRun` end with a spent coin spendable again, the latter with all checkpoints held.
- **Equal stable generations bound mutations from the first call's own read to the start of the second call, not to its
  end** (`Generation.MutationInsideCall`).
- **Single use is by spelling.** The signature of an audit package covers the bytes of its id while the consumed set
  holds the text, and both cases of hexadecimal are read, so the same id in upper case is accepted again. A replay is
  accepted if and only if its text is new; with the lower-case text that signing writes, an id is accepted at most once.
- Comments at src/chain.rs:2162-2165 put the finality floor at the last multiple of 144; the code at
  src/chain.rs:2941 uses the tip height minus 144, and the model follows the code. The comment on the pool's checkpoint
  stack at src/storage/spark_pool.rs:136-138 calls it persisted; the code keeps it in memory only. A comment at
  src/storage/spark_pool.rs:234-238 says that a reorg past a restart is refused; the callers of the rewind log the empty
  stack at src/chain.rs:1406-1416 and go on.

## Model

| member | source | states |
|---|---|---|
| Types.Work | src/chain.rs:4395-4411 | the work of any 256-bit target is between 1 and u128::MAX |
| Types.WorkAntitone | src/chain.rs:4395-4411 | a harder target never stands for less work |
| UtxoSet.DisconnectUndoesConnect | src/storage/utxos.rs:787-931 | disconnecting the block just connected restores outputs and key images if and only if the block was unseen |
| UtxoSet.ConnectUndoesDisconnect | src/storage/utxos.rs:787-931 | re-connecting a disconnected block restores the set when the block's own entries were there |
| UtxoSet.CreatedCount | src/storage/utxos.rs:824-880 | a well-formed block creates as many entries as it has outputs: no narrowed index collides |
| UtxoSet.UndoEquivalent | src/storage/utxos.rs:787-931 | connect then disconnect leads back, with outputs-ever minus disconnects unchanged |
| UtxoSet.RedoEquivalent | src/storage/utxos.rs:787-931 | disconnect then connect leads back, with outputs-ever minus disconnects unchanged |
| Ledger.DisconnectHolds | src/chain.rs:3005-3107 | disconnecting the last block moves the output set from one fold to the previous one |
| Ledger.DisconnectCovers | src/chain.rs:3005-3107 | the same for a set that holds at least the fold, and re-connecting leads back |
| Ledger.SupplyIsSchedule | src/chain.rs:2437-2463 | total supply is the emission schedule summed over all heights up to the tip |
| Ledger.EveryBlockCommits | src/chain.rs:4428-4450 | every canonical block from the enforcement height on commits to the emitted and burned totals of its own prefix |
| Ledger.NoRepeat | src/consensus/validation.rs:740-800 | a transaction that creates an output or spends a key image is on a canonical chain once |
| Ledger.MarkedNoRepeat | src/chain.rs:2263-2343 | if every transaction does one or the other and identifiers fix transactions, no identifier is on the chain twice |
| Ledger.LiveCount | src/storage/utxos.rs:824-880 | the live output set has exactly the outputs the chain created |
| Ledger.WorkOfState | src/chain/fork_calc.rs:225-275 | the running work total is 1 plus the work of every block above genesis |
| ForkWalk.FindForkPoint | src/chain/fork_calc.rs:277-312 | the backward walk, on any store: first ancestor on the main chain, None on a cycle or a missing parent |
| ForkWalk.ForkPointIsBranch | src/chain/fork_calc.rs:277-312 | on a sound store the walk finds where the block's lineage leaves the canonical chain |
| ForkWalk.BranchesOnce | src/chain/fork_calc.rs:277-312 | that point is unique |
| ForkWalk.CollectForkChain | src/chain/fork_calc.rs:316-345 | the collected blocks, oldest first, on any store |
| ForkWalk.ForkChainIsLineage | src/chain/fork_calc.rs:316-345 | on a sound store they are the lineage strictly between fork point and tip |
| ForkWalk.ForkCumulativeWork | src/chain/fork_calc.rs:164-222 | the work walk with its step budget, on any store |
| ForkWalk.WorkIsLineageWork | src/chain/fork_calc.rs:164-222 | on a sound store it is the work of the whole lineage |
| ForkWalk.ForkShape | src/chain/fork_calc.rs:316-345 | a block's lineage is shared prefix, fork blocks and the block, heights and parents linked |
| Policy.DeeperIsHarder | src/consensus/finality.rs:198-270 | depth only ever makes a reorg harder, and none is accepted with less work than the tip |
| Policy.RequiredWorkMonotone | src/consensus/finality.rs:249-258 | the exponential requirement is at least the honest work and grows with depth, saturation included |
| Policy.ReachIsExact | src/chain.rs:2929-2960 | in heights: every height a permitted reorg disconnects is within 200 of the highest tip if and only if the tip is within 57 of it |
| Reach.ReachOfCaches | src/chain.rs:317-345 | every legal cache holds all that any permitted reorg disconnects if and only if the tip is within 57 of its highest |
| Reach.FullReachOfCaches | src/chain.rs:3131-3138 | every legal cache holds also the fork point's body if and only if the tip is within 56 of it, 57 up to height 144 |
| Reach.PointlessRefused | src/consensus/validation.rs:1262-1266 | a reorg whose fork point is not cached never succeeds under rules that want the parent |
| Reach.RefusedAtTheEdge | src/chain.rs:3131-3138 | at 57 below the highest tip there is a legal cache with which the deepest permitted reorg is refused for that reason |
| Phase2.ConnectExact | src/chain.rs:2482-2496 | checkpoint-then-apply keeps contents the replay of the chain and each checkpoint the height of its block and the replay below it; no store declines |
| Phase2.RewindExact | src/chain.rs:3022-3030 | one rewind per disconnected block keeps it so |
| Phase2.DeclinesIff | src/storage/shielded.rs:394-441 | a failed reorg is declined a checkpoint if and only if the store is the declining one, still holds a checkpoint above the fork point after the rewinds, and a fork block is connected or a height is put back at or below it; never if every height above the fork point was disconnected |
| Phase2.FailedReorgDepth | src/chain.rs:3519-3665 | where nothing is declined the depth left by a failed reorg is a function of the depth before and the block counts |
| Phase2.FailedReorgOutcome | src/chain.rs:3519-3665 | a failed reorg that had a checkpoint for every rewind keeps the depth if and only if nothing was declined and the fork pushed no checkpoint out, and otherwise loses some; one that had fewer is left one per disconnected block, up to the cap |
| Phase2.FailedReorgContents | src/chain.rs:3634-3659 | a failed reorg of a mirroring store leaves the replay without the disconnected blocks, and without one more block for each fork block declined |
| Phase2.FailedReorgRestores | src/chain.rs:3634-3659 | it restores the contents if and only if none of those blocks carried a payload |
| Phase2.ContentsLost | src/chain.rs:3634-3659 | a store with one payload that a failed reorg leaves empty |
| Disk.IndexLocates | src/chain.rs:2518-2538 | the index of a chain maps exactly its transactions, each to its height and position, if and only if no identifier is in two blocks |
| Disk.CommitBlockDescribes | src/db/mod.rs:1115-1188 | the block commit takes a database that describes a chain to one that describes the chain with the block, transaction index included |
| Disk.CommitReorgIndex | src/chain.rs:4044-4110 | dropping the disconnected and adding the connected transactions gives the new chain's index if and only if every identifier on both sides of the fork point comes again |
| Disk.CommitReorgDescribes | src/db/mod.rs:975-1089 | the reorg commit takes it to one that describes the new chain, no stale height; the transaction index follows if and only if that condition holds |
| Disk.CommitRollbackIndex | src/chain.rs:1855-1905 | dropping the transactions above a height leaves the index of the prefix if and only if none of them is also below |
| Disk.CommitRollbackDescribes | src/chain.rs:1855-1905 | a completed rollback leaves a database that describes the shorter chain; the transaction index follows if and only if that holds |
| Disk.DescribesOne | src/chain.rs:4012-4017 | a database describes at most one chain |
| Disk.TornRollback | src/chain.rs:1855-1895 | with the dropped transactions removed, heights cut and the old record still there, the database describes no chain |
| ReorgTrail.IdsAbove | src/chain.rs:4044-4053 | the transactions removed from the index are exactly those of the blocks above the fork point |
| ReorgTrail.PassedExtends | src/chain.rs:3133-3306 | a block that passes the checks against rewound totals extends the fork's own fold |
| ReorgTrail.UndoStep | src/chain.rs:3529-3610 | undoing a connected fork block leads back to the moment before it |
| ReorgTrail.RedoStep | src/chain.rs:3634-3659 | re-applying a disconnected block leads back to the moment before its disconnection |
| ReorgTrail.CollectedFork | src/chain.rs:3128-3128 | read through cache and disk, the collected fork links fork point to new tip |
| ReorgTrail.PeelStep | src/chain.rs:3009-3106 | one height further down keeps the redo trail and the exact count of bodies found |
| NodeState.EvictStep | src/chain.rs:317-345 | looking at one more height evicts it exactly when it is evictable |
| NodeState.CacheEvict | src/chain.rs:317-345 | eviction keeps genesis and every body and height within 200 of the highest tip |
| NodeState.EvictsLowest | src/chain.rs:317-345 | above 500 cached blocks the lowest evictable height goes |
| NodeState.CacheReorg | src/chain.rs:4003-4003 | after a switch the caches name the new chain and still reach as far back |
| NodeState.TotalsReorg | src/chain.rs:3911-3999 | after a switch height, block count, transaction count, supply, burn and work are those of the new chain |
| NodeState.RunningBefore | src/chain.rs:1720-1785 | disconnecting a block takes exactly its share out of every running total, with no underflow and no saturation |
| Moves.FinalStep | src/chain.rs:2929-2960 | one move keeps everything up to the finality floor of the lower of its two tips |
| Moves.Finality | src/chain.rs:2929-2960 | over any mix of moves, a block stays canonical as long as every tip stays 144 above it |
| Moves.FinalForever | src/chain.rs:2929-2960 | when the tip never falls, a block 144 deep is canonical forever |
| Moves.InOrderStep | src/chain.rs:1349-1419 | a move whose failed reorg, if it is one, disconnected every height above its fork point keeps held heights increasing up to the tip's; nothing is declined, and the depth depends only on the depth before and on how many blocks moved |
| Moves.RefusesIff | src/storage/shielded.rs:394-441 | exactly when a permitted move is declined a checkpoint |
| Moves.MirrorRefusesIff | src/chain.rs:3009-3030 | for a mirroring store: exactly when a failed reorg left a height above the fork point connected whose checkpoint is still held |
| Moves.DepthLost | src/chain.rs:3519-3665 | a full stack, one block disconnected and two fork blocks connected: 999 checkpoints are left |
| Moves.LockStep | src/chain.rs:1349-1419 | two stores of one node, declining or not and whatever they hold, keep equal depth along every history whose failed reorgs disconnected every height above their fork points |
| Moves.MirrorStep | src/chain.rs:3846-3862 | extensions, accepted reorgs and rollbacks above the checkpoint horizon keep a store mirroring the chain |
| Moves.MirrorsForever | src/chain.rs:3846-3862 | over every such history from genesis, contents are the replay of the canonical chain, one checkpoint per block |
| Moves.ReachIsShallow | src/chain.rs:2929-2960 | a permitted reorg within reach never goes below the checkpoint horizon |
| ForkChoice.ChildIsBetter | src/chain.rs:4395-4411 | a block on the tip always wins, because every block's work is at least 1 |
| ForkChoice.DeliverBest | src/chain.rs:2816-2826 | after every delivery no stored block has a better lineage than the chain |
| ForkChoice.BestUnique | src/chain.rs:2816-2826 | the stored blocks determine the best chain |
| ForkChoice.AllStored | src/chain/apply.rs:38-66 | delivered parent-first, with re-deliveries, every block is stored exactly once |
| ForkChoice.ArrivalOrder | src/chain.rs:2785-2826 | of the specification: the same blocks in any two parent-first orders lead to the same chain, the greatest by work and then smaller hash |
| Convergence.ForkAllJoins | src/chain.rs:3131-3508 | a valid block whose reorg the policy admits passes every check of the reorg, with its whole fork |
| Convergence.Take | src/chain.rs:2110-4240 | a node that holds valid blocks only and is in full reach takes a valid block as one delivery, unless the depth policy refuses its reorg |
| Convergence.Feed | src/chain.rs:2110-4240 | fed any list of valid blocks the policy lets through, the node is the specification's node |
| Convergence.LowIsOpen | src/consensus/finality.rs:198-270 | the policy refuses no better lineage of blocks up to height 144, or up to the reorg cap if that is less |
| Convergence.Converge | src/chain.rs:2785-2826 | two nodes that receive the same valid blocks in any two parent-first orders, with re-deliveries, end on the same chain, the best of all stored |
| Convergence.ConvergeLow | src/chain.rs:2785-2826 | the same with nothing asked of the policy, for blocks up to that height |
| Chain.Blockchain.constructor | src/chain/recovery.rs:27-114 | genesis initialisation gives a valid node on the genesis chain |
| Chain.Blockchain.ValidPromises | src/chain.rs:2421-2475 | a valid node's supply, work, live outputs and commitments are those the chain promises; a filed transaction index finds every transaction if and only if nothing repeats |
| Chain.Blockchain.SameChainSameState | src/chain.rs:3846-4003 | two valid nodes on the same chain agree on all state, filed transaction indexes included, whatever led them there |
| Chain.Blockchain.DisconnectOne | src/chain.rs:3009-3106 | one turn of the disconnect loop, cached or not, and that it can be undone |
| Chain.Blockchain.DisconnectTo | src/chain.rs:3005-3107 | the disconnect loop: no subtraction underflows; it reaches the fold of the fork point when all is cached, and every block is counted if and only if all is cached |
| Chain.Blockchain.BuildWindow | src/chain.rs:3668-3715 | the difficulty window is that of the block's own chain |
| NodeState.JoinsNow | src/chain.rs:3133-3306 | the checks against the node's rewound state decide whether the block joins the fork's own chain, however the node got there |
| Chain.Blockchain.PassesLedger | src/chain.rs:3138-3306 | a block passes exactly when validation, shielded gate and commitment to the totals its apply leaves behind do |
| Chain.Blockchain.ConnectOne | src/chain.rs:3308-3387 | connecting a fork block moves index, store, output set, supply and burn together |
| Chain.Blockchain.ConnectFork | src/chain.rs:3131-3387 | the connect loop: every connected prefix is a sound chain whose fold the node holds, and can be undone; it fails exactly when some fork block does not join the blocks below it |
| Chain.Blockchain.UndoMapped | src/chain.rs:3529-3610 | path A: the blocks mapped to their own hash are exactly the connected ones, and undoing them leads back |
| Chain.Blockchain.UndoAll | src/chain.rs:3750-3806 | path B: undoing every fork block leads back |
| Chain.Blockchain.ReapplyBlocks | src/chain.rs:3634-3659 | the re-apply loop restores height cache, outputs and key images, and pushes one checkpoint per held block |
| Chain.Blockchain.ReapplyMain | src/chain.rs:3611-3659 | with the mappings above the fork point dropped first, so no entry above the old tip is left |
| Chain.Blockchain.Restore | src/chain.rs:3661-3664 | tip and statistics are the saved ones again |
| Chain.Blockchain.Attach | src/chain.rs:3131-3508 | ready exactly when the whole fork and the new tip join, otherwise a failure of path A's or path B's kind |
| Chain.Blockchain.Undo | src/chain.rs:3519-3835 | exactly one path is taken for a failure, and either restores the node |
| Chain.Blockchain.SwitchOrRestore | src/chain.rs:2990-3835 | for every fork and every failure point a failed reorg restores tip, statistics, height cache, outputs and key images; with all blocks cached it fails exactly when some block does not join |
| Chain.Blockchain.AdoptTip | src/chain.rs:3837-4003 | making the fork head the tip leaves the fold of the new chain in memory |
| Chain.Blockchain.Adopt | src/chain.rs:3837-4181 | and one commit brings the disk along |
| Chain.Blockchain.Reorg | src/chain.rs:2990-4225 | restored, or switched to the block's lineage; the switched node is valid if and only if the disconnected blocks were cached; the orphaned non-coinbase transactions are returned |
| Chain.Blockchain.StoreBody | src/chain.rs:2347-2361 | storing a body changes no index, no lineage and nothing the disk describes |
| Chain.Blockchain.EvictCache | src/chain.rs:317-345 | eviction drops the lowest evictable heights with their bodies, as many as exceed the limit, or all of them |
| Chain.Blockchain.Evict | src/chain.rs:2499-2501 | the caches still reach 200 below the highest tip |
| Chain.Blockchain.ExtendTip | src/chain.rs:2363-2501 | accepted exactly when the shielded gate passes; then a valid node on the longer chain |
| Chain.Blockchain.ApplyTip | src/chain.rs:2421-2501 | the in-memory half of the extension |
| Chain.Blockchain.CommitTip | src/chain.rs:2518-2667 | the durable half: one commit, and the recorded checkpoint height |
| Chain.Blockchain.ForkFacts | src/chain.rs:2785-2840 | on a valid node fork work and fork point are those of the block's lineage, never missing |
| Chain.Blockchain.ReachCovers | src/chain.rs:317-345 | within reach of the highest tip every block a permitted reorg disconnects is cached |
| Chain.Blockchain.EvaluateFork | src/chain.rs:2782-4236 | kept exactly when the lineage is no better, refused exactly when better but not admitted by policy, otherwise tried, and then switched to exactly when all its blocks join |
| Chain.Blockchain.GenesisCached | src/chain.rs:317-345 | genesis is never evicted |
| Chain.Blockchain.KnownOnDisk | src/chain/apply.rs:38-66 | a block is known exactly when its body is on disk |
| Chain.Blockchain.PassesArrival | src/chain.rs:2146-2343 | passes exactly when the arrival checks do, and then a tip block extends the chain |
| Chain.Blockchain.Screen | src/chain/apply.rs:38-66 | what is answered before anything is stored: known, orphan, invalid, in that order; a block that gets through has a stored parent, and extends the chain if it is on the tip |
| Chain.Blockchain.AddOnTip | src/chain.rs:2345-2667 | store and extend, as one delivery of fork choice |
| Chain.Blockchain.AddOffTip | src/chain.rs:2345-4236 | store and evaluate, as one delivery of fork choice |
| Chain.Blockchain.AddBlock | src/chain.rs:2110-4240 | for every block: exactly which answer, which state and caches it leaves, that it is a permitted move and a delivery of fork choice, that every write describes the chain before or the one after, that the output count never falls, and exactly when the node stays valid and its transaction index filed |
| Chain.Blockchain.RollbackOne | src/chain.rs:1637-1787 | one turn of the rollback loop, its block found in cache or on disk |
| Chain.Blockchain.RollbackBlocks | src/chain.rs:1633-1788 | the loop reaches the fold of the target and collects every orphaned non-coinbase transaction |
| Chain.Blockchain.LowerTip | src/chain.rs:1790-1852 | tip and statistics move to the target together |
| Chain.Blockchain.CleanUp | src/chain.rs:1855-1905 | the disk follows in two writes, the first of which describes no chain |
| Chain.Blockchain.RollbackToHeight | src/chain.rs:1583-1908 | refused exactly below a recorded checkpoint; otherwise a valid node on the chain cut at the target, missing no body, its transaction index filed exactly when no identifier is on both sides; some write describes no chain if and only if the tip moves |
| Runs.ServeBlock | src/chain.rs:2110-4240 | a received block is one permitted move of a node that stays valid, or an accepted reorg over an uncached block, which the block count shows and which never happens within reach |
| Runs.Run | src/chain.rs:1583-4240 | every sequence of calls from genesis is served by a valid node and adds up to a trace of permitted moves, unless a received block makes the node accept a reorg out of reach and lose validity; if the tip never falls all calls are served; within reach every failed reorg disconnects all heights above its fork point |
| Runs.StoresInStep | src/chain.rs:1349-1419 | in a run within reach all stores, declining or not, keep the same checkpoint depth |
| Runs.HighestIsTip | src/chain.rs:2929-2960 | while the tip never falls it is the highest there was, so every call is within reach |
| Runs.RisingRun | src/chain.rs:2929-2960 | in such a run a block 144 deep is canonical forever, and if no reorg failed the store mirrors the chain at every moment |
| Lapse.Prepare | src/chain.rs:317-345 | a run of 202 main blocks and 299 siblings and a rollback that leaves a valid node at any height from 144 to 201 with the first block evicted |
| Lapse.Strike | src/chain.rs:3005-3107 | at height 144 a reorg to height 1 is admitted and accepted, and the node is no longer valid |
| Lapse.Drift | src/storage/shielded.rs:394-441 | at height 144 a failed reorg leaves the node valid, a declining store 143 checkpoints and any other 144, where both had 144 |
| Lapse.Refuse | src/chain.rs:3131-3138 | at height 145, 57 below the highest, a block that passes validation with its parent is refused, because the parent is looked up in the cache |
| SparkPool.GateAdmits | src/chain.rs:952-1326 | every transaction of an accepted block applies without a panic, and the simulated pool value is the applied one |
| SparkPool.TagsFresh | src/chain.rs:1173-1193 | the tags of each accepted transaction are unspent and pairwise distinct across the block |
| SparkPool.MintsNew | src/chain.rs:1084-1110 | minted outpoints are new when mints of a block are funded by different key images |
| SparkPool.BackedStep | src/chain.rs:1003-1162 | one accepted transaction keeps the pool value at or above the value of all unspent coins |
| SparkPool.UnderflowNeverFires | src/chain.rs:1043-1053 | on a backed pool the gate passes if and only if its proofs do: the underflow check never refuses a proven block |
| SparkPool.VeilConserves | src/chain.rs:1274-1325 | over every chain of admitted blocks the pool value covers all unspent coins and is never negative |
| SparkRuns.VeilHolds | src/storage/spark_pool.rs:549-660 | over every run of blocks joined, rewound, gone without a rewind, put back or only mapped again, and restarts: if no tag stands above the tip when a checkpoint is pushed, the pool value covers all unspent coins now and after any number of rewinds, and is exactly theirs if all transactions are plain |
| SparkRuns.GuardedStep | src/storage/spark_pool.rs:549-660 | one step of any kind keeps it so |
| SparkRuns.PushExact | src/storage/spark_pool.rs:549-660 | on a balanced vault a push keeps it so if and only if no coin of value was spent above the tip |
| SparkRuns.FallExact | src/chain.rs:3009-3030 | a tip that falls without a rewind leaves tags and checkpoints at most the tip if and only if none stood at its height |
| SparkRuns.UntiedRun | src/chain.rs:1373-1419 | so a run whose falls are all like that never pushes a checkpoint below a tag |
| SparkStale.RestartRun | src/storage/spark_pool.rs:226-241 | mint, spend, restart, a reorg past the restart: a run that ends with a spent coin unspent and nothing to back it |
| SparkStale.UncachedRun | src/chain.rs:3009-3030 | mint, spend, a failed reorg over uncached bodies: the same with the tip back and both checkpoints held |
| SparkRuns.Step | src/chain.rs:1203-1419 | the store and the tip make each step as the model says, the tip falling also when there is no checkpoint |
| SparkRuns.Drive | src/chain.rs:1203-1419 | whatever steps the store is driven by, they are a run, so the value covers all unspent coins unless a checkpoint was pushed below a tag |
| SparkPool.BalancedStep | src/chain.rs:1140-1162 | one transaction keeps it equal to them when a spend declares its fee and all coins are new |
| SparkPool.VeilBalances | src/chain.rs:1274-1325 | over every chain of admitted blocks of such transactions the pool value is exactly the value of the unspent coins |
| SparkPool.RewindUndoes | src/storage/spark_pool.rs:589-660 | rewinding a block restores the pool if and only if every spent tag is older than the block |
| SparkPool.RewindChain | src/storage/spark_pool.rs:549-660 | on a chain it always is, so the rewound pool is that of the shorter chain |
| SparkStore.SparkPoolStore.AddCoin | src/storage/spark_pool.rs:263-307 | appended under a dense index, or None if the outpoint is present |
| SparkStore.SparkPoolStore.MarkTagSpent | src/storage/spark_pool.rs:411-427 | marked once, false when already spent |
| SparkStore.SparkPoolStore.ApplyValueBalance | src/storage/spark_pool.rs:504-527 | refused, and unchanged, exactly when the pool would go negative |
| SparkStore.SparkPoolStore.CheckpointAt | src/storage/spark_pool.rs:549-562 | pushes the boundary, dropping the oldest past 1000 |
| SparkStore.SparkPoolStore.Rewind | src/storage/spark_pool.rs:589-660 | truncates coins, index and tags to the boundary and restores the value; false on an empty stack |
| SparkStore.SparkPoolStore.MintPasses | src/consensus/spark_payload.rs:384-402 | the mint authenticates exactly the value entering, with no coin already in the pool |
| SparkStore.SparkPoolStore.ShapePasses | src/chain.rs:975-1155 | the per-transaction checks, in the gate's order, decide the shape predicate |
| SparkStore.SparkPoolStore.ShapesPass | src/chain.rs:970-1165 | first pass: all shapes hold and no running pool value is negative |
| SparkStore.SparkPoolStore.ProofsPass | src/consensus/spark_payload.rs:158-217 | second pass: every proof holds on this pool and shows unspent tags |
| SparkStore.SparkPoolStore.TagsDiffer | src/chain.rs:1183-1192 | last pass: no tag twice within the block |
| SparkStore.SparkPoolStore.VerifyBlock | src/chain.rs:952-1194 | the gate, as the conjunction of its passes |
| SparkStore.SparkPoolStore.MarkTags | src/consensus/spark_payload.rs:244-250 | succeeds exactly when the tags are fresh and distinct |
| SparkStore.SparkPoolStore.AddNew | src/chain.rs:1282-1296 | succeeds exactly when all outpoints are new and distinct |
| SparkStore.SparkPoolStore.AddMissing | src/chain.rs:1304-1313 | adds the absent coins only |
| SparkStore.SparkPoolStore.ApplyPayload | src/chain.rs:1220-1325 | halts exactly on the consensus faults, otherwise the effect of the transaction |
| SparkStore.SparkPoolStore.ApplyBlock | src/chain.rs:1203-1326 | halts exactly when some transaction faults, otherwise the fold |
| SparkStore.ConnectBlock | src/chain.rs:2411-2494 | gate, checkpoint, apply: an accepted block never halts the apply, a refused one changes nothing |
| Generation.NeverUnderflows | src/chain.rs:475-488 | the in-progress counter can always be lowered |
| Generation.QuietMomentAgrees | src/chain.rs:475-488 | in every interleaving, equal generations at two moments, the later one quiet, mean no mutation between them |
| Generation.SameAnswerNoMutation | src/chain/queries.rs:564-572 | two calls with the same answer: no mutation from the first one's read of the generation to the start of the second |
| Generation.MutationInsideCall | src/chain/queries.rs:564-572 | the bound cannot be moved to the end of the second call |
| Breaker.RecoveryBreaker.constructor | src/breaker_recovery.rs:65-68 | a fresh breaker is the closed form of the empty history |
| Breaker.RecoveryBreaker.Observe | src/breaker_recovery.rs:94-122 | after every history the state is the closed form: open below the streak, half-open at it, closed above; latched open |
| Breaker.RecoveryBreaker.RearmNow | src/breaker_recovery.rs:127-130 | rearm closes and starts the history over |
| Breaker.SinceFaultMeaning | src/breaker_recovery.rs:94-122 | the closed form counts healthy ticks since the last fault of the plain history |
| Breaker.LatchIsolatesIff | src/breaker_recovery.rs:105-108 | a latch is open if and only if some fault has no rearm after it |
| Breaker.AutoResetIsolatesIff | src/breaker_recovery.rs:109-121 | an auto-resetting breaker isolates if and only if at most the streak of healthy ticks follows the last fault |
| Integrity.Detect | src/block_integrity_breaker.rs:62-79 | every fault shown is listed once, and no other |
| Integrity.Evaluate | src/block_integrity_breaker.rs:108-116 | rejects exactly when armed and faulty |
| Integrity.LiveFeed.OnBlockConnected | src/block_integrity_live_breaker.rs:45-83 | open after a history if and only if some reading fell below an earlier one or contradicted itself |
| Integrity.SoundNodeIsHealthy | src/block_integrity_live_breaker.rs:45-83 | a node that holds the fold of its chain shows no fault, as long as its output count has not gone back |
| Runs.Watch | src/block_integrity_live_breaker.rs:45-83 | it never goes back: after every block a node within reach receives, the feed's breaker is closed |
| SimClock.NoTickLost | src/clock.rs:166-179 | in every interleaving the clock is the start plus each committed advance once, saturating, and each returned instant the prefix sum at its commit |
| SimClock.AllCommitted | src/clock.rs:166-179 | when all calls have returned, the clock is the start plus the sum of all advances asked for, saturating |
| SimClock.InstantsGrow | src/clock.rs:166-179 | in commit order the returned instants never decrease |
| Sha256Constants.InitialFromRoots | build.rs:281-284 | the initial hash value is the fraction bits of the square roots of the first eight primes |
| Sha256Constants.ConstantsFromRoots | build.rs:285-300 | the round constants are the fraction bits of the cube roots of the sixty-four listed primes |
| Sha256Primes.FirstPrimes | build.rs:285-300 | the list has exactly the primes up to 311, in order: the first sixty-four |
| Sha256.PadMessage | build.rs:302-308 | the padding loop yields the padding of section 5.1.1 of FIPS 180-4 |
| Sha256.PadLength | build.rs:302-308 | its length is the least multiple of 64 that fits message, marker and length |
| Sha256.PadRecoverable | build.rs:302-308 | the message is recoverable from it, for every input under 2^61 bytes |
| Sha256.PadInjective | build.rs:302-308 | different messages have different paddings |
| Sha256.Schedule | build.rs:311-326 | the array filled in place is the message schedule of section 6.2.2 |
| Sha256.RunRounds | build.rs:327-348 | the eight shifting variables are the recursive fold of the rounds |
| Sha256.Compress | build.rs:310-356 | one block is compressed in place |
| Sha256.Hash | build.rs:280-362 | the whole function, for every input |
| Sha256.LineEndingsHashAlike | build.rs:259-270 | a CR-free text hashes alike with LF and with CR LF line ends |
| Bytes.HexBack | src/compliance.rs:1178-1189 | decoding undoes encoding |
| Bytes.LowerIsCanonical | src/compliance.rs:1178-1189 | lower-case text that decodes is the encoding of what it decodes to |
| Compliance.SigningBytes | src/compliance.rs:720-736 | the appended buffer is the audit message |
| Compliance.AuditMessageInjective | src/compliance.rs:720-736 | the message determines package, issuer, audit id and audience |
| Compliance.StatementBytes | src/compliance.rs:824-841 | the appended buffer is the custody statement |
| Compliance.CustodyMessageInjective | src/compliance.rs:824-841 | the statement determines every field |
| Compliance.KindsApart | src/compliance.rs:729-832 | no message of one kind is a message of the other |
| Compliance.Auditor.ClaimSingleUse | src/compliance.rs:981-983 | true the first time, false on replay |
| Compliance.Auditor.Accept | src/compliance.rs:990-1004 | accepted exactly when verified and unused; a refused or erring call consumes nothing |
| Compliance.ConsumedExactly | src/compliance.rs:990-1004 | over any sequence of calls the consumed set is the initial one plus the accepted ids |
| Compliance.TextOnce | src/compliance.rs:981-983 | no id text is accepted twice |
| Compliance.SingleUse | src/compliance.rs:743-1004 | with lower-case ids, no audit id is accepted twice |
| Compliance.ReplayIff | src/compliance.rs:956-1004 | a re-spelled package is accepted again if and only if its text is new |
| Compliance.UpperCaseAcceptedTwice | src/compliance.rs:1178-1189 | a concrete id accepted twice |
| Compliance.SignedIdIsLower | src/compliance.rs:743-760 | what signing writes is lower-case and decodes to the signed id |

## Left out

- Ledger.Repeatless: that a pool-internal send, which has neither outputs nor key images, is not on the chain twice is not derived; the linking tags that ensure it belong to the shielded pool, which the chain's model sees as abstract contents.
- Convergence.Converge: the tip stays within 56 blocks of the highest it has been (57 up to height 144), because beyond that the code itself can refuse or corrupt a valid reorg.
- SparkRuns.VeilHolds: holds under the condition stated, because without it the property is false of the code.
- SparkRuns.Drive: asks that two mints of one joined block are funded by different key images, which block validation sees to.
- Chain.Blockchain.AddBlock: supply, burn, work and counters are unbounded; the u128 overflow panics and u64 widths are not modelled, except the 64-bit narrowing of the persisted burn total.
- Chain.Blockchain.AddBlock: the database is always present and its commits succeed; a failed commit halts the node with the disk unchanged, which is the crash point before the write.
- Chain.Blockchain.AddBlock: the branch for a tip that changed during the call cannot be taken while the writer lock is held, and is not written out.
- Chain.Blockchain.PassesArrival: hardcoded checkpoints, median time past and the difficulty window of a block off the tip are one predicate of the block, whose hash fixes its ancestors; its exact target is checked again, and modelled, when it is connected.
- Ledger.Rules: that blocks below the recorded checkpoint height are spared the delay-function proof on arrival is not distinguished.
- Chain.Blockchain.RollbackToHeight: a crash between its writes is shown to be unsafe, not repaired, as in the code.
- Chain.Blockchain.Valid: the difficulty fields of tip and statistics are telemetry that a rollback does not reset, and are not part of the fold.
- Phase2.Store: one store with abstract contents, declining or not, stands for each of the node's stores; it goes back to the contents of its checkpoint, while the shielded pool drops tags by height, which is in SparkRuns.
- Phase2.FailedReorgContents: asks that the fork has at most 1000 blocks, which the reorg cap of every network sees to.
- Phase2.Checkpoint: the assertion of equal depths, compiled into debug builds only, is not modelled.
- SparkPool.Proven: the batched proof check is taken item by item, as the code documents it; grouping by cover set is not modelled, nor is the cast of a coin position to 32 bits.
- SparkStore.SparkPoolStore.Rewind: the maintained maximum heights and the persisted copies are not modelled, nor is the separate security sweep after the apply.
- Generation.Run: the atomics are interleaved steps; the counters do not wrap.
- SimClock.Run: pinning and clearing the clock while advances are under way is not modelled.
- Integrity.LiveFeed: serial use only, outputs-ever below the u64::MAX sentinel.
- Compliance.Verified: the JSON of a package, the signature scheme and anchored verification are parameters.
- The on-disk output index, recorded checkpoint hashes, pruning, reload from disk, bootstrap restore and corruption repair.
- Rolling finality, cut-through, the event ring, metrics, tracing and the asynchronous wrappers.
- Emission, fee distribution, difficulty adjustment, transaction validation and all cryptography.
- Report rendering, reconciliation and sealing of audit packages; the lock-file parser of the build script.
- Wall-clock time, configuration, decoys, the mempool and peer-to-peer code, which would add only easy members.
