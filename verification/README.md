# Ledger core of a full node

A Dafny model of the ledger core of a Go full node, with proofs. It covers four state machines that
have to agree, and three algorithms they rest on:

- the active chain: validation of a block as one batched difference of the unspent-output set,
  connection, disconnection, and the switch to a heavier branch (`chain.dfy`, over `path.dfy`,
  `batch.dfy`, `supply.dfy`, `unique.dfy`);
- the journaled store: every file write is one atomic step, and a crash may fall between any two
  (`storage.dfy`, `active.dfy`, `filestore.dfy`), joined to the invariant of the running node in
  `restart.dfy`;
- the transaction pool and the template builder (`dag.dfy`, `mempool.dfy`, `pool.dfy`,
  `mining.dfy`);
- the check of an announced batch of headers (`headers.dfy` and class `Chain`);
- compact targets and the difficulty average (`target.dfy`, `compact.dfy`), the script interpreter
  and signature matching (`script.dfy`, `pushes.dfy`, `templates.dfy`), and base58 (`base58.dfy`).

`dafny verify dfyconfig.toml` checks the whole project.

`boundaries.dfy` and `poolloss.dfy` hold concrete runs on which the unconditional form of a property
fails: valid chains, built in `easychain.dfy` under parameters for which every hash has work and
every script verifies, and blocks that validation accepts on them.

## How the pieces fit

`Ledger.Replay` runs a chain of blocks transaction by transaction; it is the reference that
everything else is measured against. `Ledger.BlockTxsOk` is the reference validator on it. The
batched validator of the node is proved to accept the same blocks and to produce the same set. The
object `Blockchain.Chain` carries, as ghost state, the path of active blocks; its invariant `Valid`
says that the stored maps are what replaying that path gives, that the path is valid, and that
every memoised or recorded work value is the sum of work along the parent path. Every method keeps
it, so it holds in every reachable state (`Blockchain.Chain.StateFacts` spells it out).

## Assumptions

- Hashes are ideal: a transaction id is the term `HashOf(tx)`, a block hash the term
  `HeaderHash(header)`, and a Merkle root the sequence of ids it commits to. So they are injective
  and nothing contains its own hash. Proof-of-work values, signatures, sizes, signature-operation
  counts and script policy are uninterpreted functions.
- The code never checks that a block's outputs are new (the rule of BIP 30). It is derived here
  from a hypothesis on the blocks handed in: a valid chain of them that starts from the node's first
  block has pairwise different coinbases (`Blockchain.WorldOk`). Blocks on no valid chain are not
  restricted, so anything may be handed in and rejected. Where that rule matters, the exact
  condition is proved: `Batch.BatchRefinesSequential`, `Batch.RevertUndoesCommit`,
  `Storage.ConnectCrashAtomic`; `Boundaries.BatchCanDiffer` and `Boundaries.UndoCanLose` show
  accepted blocks for which it fails.
- Writes succeed unless a crash stops them. The clock does not go back, and adding the future
  drift to it does not pass 2^32 (until the year 2106).

## What the proofs turned up

- A branch switch is all or nothing exactly when no waiting orphan fits the branch somewhere below
  its tip (`Blockchain.GoesAstray`, a condition on the state before the switch). Such an orphan is
  accepted in the middle of the attachment, the next branch block then fails, and the rollback,
  which counts only branch blocks, stops too early: `TryActivateSideChain` is refused and the chain
  has changed. A fit by the clock at the start suffices, one by the clock at the end is necessary;
  while the clock reads the same the two are one condition. `Boundaries.StrandedSwitch` runs such a
  switch. If the switch fails with the old chain back, some branch block is invalid.
- Rolling back an interrupted connect deletes the block's hash record even if the block had been
  stored before, as in a switch back to an old branch. `Restart.CrashedSaveCore` proves that a crash
  in a save leaves the node's invariant intact exactly when nothing was rolled back or no stored
  block is a child of the one rolled back; a first save always does, and so does every disconnect.
  On a store with such a gap the chain-work recursion stops at it and counts zero for everything
  below (`Blockchain.GapCountsNothing`), and `Blockchain.Chain.Open` finds the right work for every
  stored block exactly when there is no gap. `Boundaries.RollbackCanOpenIndex` runs into one.
- The batched validator accepts exactly the blocks that the one-at-a-time validator accepts and that
  spend no outpoint twice (`Batch.ValidateBlockTransactions`); the two differ only on blocks that
  break the rule of BIP 30.
- A failing `Add` to a full pool may already have evicted an entry, because room is made before the
  conflict and depth checks: exactly when a leaf went and the newcomer does not fit the old pool
  without it (`TxPool.Pool.Commit`). `PoolLoss.EvictedForNothing` is such a run.

## Model

| member | source | states |
|---|---|---|
| Wire.BlockHashInjective | internal/blockchain/blockchain.go:491-502 | Two blocks that carry their own Merkle root and hash alike are the same block. |
| Batch.ViewIsSequential | internal/blockchain/blockchain.go:968-1137 | Store minus seen inputs plus pending outputs is, after every transaction, the set that running the transactions one at a time gives. |
| Batch.BatchRefinesSequential | internal/blockchain/blockchain.go:968-1137 | Removing the spends and then writing the adds gives the sequential set exactly when no output both made and spent in the block was stored under the same key. |
| Batch.RevertUndoesCommit | internal/blockchain/blockchain.go:1562-1610 | Undo data restores the set before the block exactly when every added key was new or is one the block spends. |
| Batch.SpendInput | internal/blockchain/blockchain.go:1061-1105 | One input is accepted exactly when it is unspent in the batch, resolves pending first, is mature, verifies and keeps the sum in range; the work record afterwards. |
| Batch.SpendInputs | internal/blockchain/blockchain.go:1061-1105 | All inputs are accepted exactly when each is good on the batched view, with the view's totals, and none was spent earlier in the block. |
| Batch.RunTx | internal/blockchain/blockchain.go:997-1128 | One turn of the validation loop accepts what the reference accepts on the view, and files exactly its effect. |
| Batch.ValidateBlockTransactions | internal/blockchain/blockchain.go:968-1137 | It accepts exactly what the reference validator accepts and that spends no outpoint twice, with an exact difference (distinct adds, spent entries as stored); so it accepts every fresh block the reference accepts. |
| Ledger.AcceptedSpender | internal/blockchain/blockchain.go:997-1128 | In an accepted block each spender, on the set its predecessors leave, spends different outputs that are there, verify and are a hundred blocks old if a coinbase made them, and pays out no more than it brings in, within the money cap and the limit on signature operations. |
| Ledger.AcceptedCoinbase | internal/blockchain/blockchain.go:968-996 | Its first transaction, and no other, is a coinbase, of the allowed script size, and takes at most subsidy and fees. |
| Ledger.FinalityIs | internal/blockchain/blockchain.go:1337-1360 | When a locked transaction is final, by height, by time, or by its inputs. |
| Boundaries.BatchCanDiffer | internal/blockchain/blockchain.go:1061-1128 | A valid chain of 201 blocks and a valid next block, accepted by the validator, on which the difference it returns does not give the sequential set. |
| Boundaries.UndoCanLose | internal/blockchain/blockchain.go:1562-1610 | A valid chain and a valid next block that repeats an unspent coinbase: with the difference the validator returns, disconnect does not undo connect. |
| Boundaries.RollbackCanOpenIndex | internal/blockchain/blockchain.go:959-966 | A node with two blocks taken off: cut the save while the lower one goes back on, and after recovery the node's invariant fails and the work found for the upper one is too small. |
| Boundaries.StrandedSwitch | internal/blockchain/blockchain.go:903-922 | A valid node that is handed a branch block, refuses it, and ends on another chain than before. |
| Supply.BlockConservation | internal/blockchain/blockchain.go:997-1128 | A block changes the total by coinbase minus fees, and raises it by at most the subsidy even if it overwrites outputs. |
| Supply.SupplyBound | internal/blockchain/blockchain.go:997-1128 | At every tip the unspent set is well formed and worth at most the subsidies through that height. |
| ChainCfg.SubsidyHalves | internal/chaincfg/params.go:77-86 | Fifty coins at first, and half as much, rounded down, every 210,000 blocks, at every height. |
| Supply.SubsidyCap | internal/chaincfg/params.go:77-86 | The subsidies of any number of blocks never exceed the money cap. |
| Supply.SupplyCap | internal/chaincfg/params.go:77-90 | At every tip, total unspent is at most total issued, which is at most the money cap. |
| Supply.IssuedSubsidyThroughHeight | internal/nodeservice/service.go:3641-3668 | The era-by-era loop returns the sum of all subsidies through the height, for every int32 height, without overflow. |
| Unique.RunsOnce | internal/blockchain/blockchain.go:1061-1105 | On a run with different coinbases no transaction runs twice: a second run would need its input made twice, an infinite descent through hashes. |
| Unique.LastBlockIsFresh | internal/blockchain/blockchain.go:968-1137 | The rule of BIP 30 holds on every valid chain with different coinbases. |
| ChainPath.SortSorts | internal/blockchain/blockchain.go:1171-1172 | The sort behind the median gives an ordered permutation of the times. |
| ChainPath.MedianBelow | internal/blockchain/blockchain.go:1171-1173 | The median lies below a time exactly when more than half of the times do. |
| ChainPath.HeaderMeans | internal/blockchain/blockchain.go:503-539 | A header is acceptable exactly when it follows the tip and more than half of the eleven latest times, is at most two hours ahead, carries the required bits, and its hash does not exceed their target. |
| ChainPath.WorkGrows | internal/consensus/target.go:118-136 | On a valid chain every block adds at least two units of cumulative work. |
| ChainPath.OnPath | internal/blockchain/blockchain.go:294-335 | On a linked chain a block's height is its position, its recorded parent the block below, and its work that of the block below plus its own. |
| Storage.ConnectCrash | internal/storage/filestore.go:202-270 | A crash after any prefix of the save writes, and any crashes during recovery, end in the rolled-back state unless the tip was written, and then in the saved one. |
| Storage.ConnectCrashAtomic | internal/storage/filestore.go:456-483 | A rolled-back connect restores tip and height index always, and the unspent set exactly when each added key was absent before or is one the block spends. |
| Storage.DisconnectCrash | internal/storage/filestore.go:284-304 | A crash at any point of a disconnect, and any crashes during recovery, always end with the disconnect finished, once the journal is written. |
| Active.SavedOk | internal/storage/filestore.go:202-270 | Saving a fresh block leaves the store describing the longer chain: replayed set, height index, tip and undo records. |
| Active.DisconnectedOk | internal/storage/filestore.go:485-525 | Disconnecting the tip leaves the store describing the shorter chain. |
| Active.UndoneIsBefore | internal/blockchain/blockchain.go:1562-1610 | Disconnect after connect is the identity on the unspent set. |
| Active.CrashedSaveOk | internal/storage/filestore.go:428-483 | After a crash anywhere in a save the store describes the old chain or the extended one, never anything between. |
| Active.CrashedDisconnectOk | internal/storage/filestore.go:428-525 | After a crash anywhere in a disconnect the store describes the old chain or the chain without its tip. |
| Active.RollbackClosedIff | internal/storage/filestore.go:456-483 | After a rollback the hash index is closed under parents exactly when no other stored block has the block as its parent. |
| Restart.CrashedSaveCore | internal/storage/filestore.go:428-483 | After a crash anywhere in a save the node's whole invariant holds, for the old chain or the extended one, exactly when nothing was rolled back or no stored block is a child of the one rolled back. |
| Restart.CrashedFirstSave | internal/storage/filestore.go:428-483 | It always holds after a crash in the first save of a block. |
| Restart.CrashedDisconnectCore | internal/storage/filestore.go:428-525 | It always holds after a crash anywhere in a disconnect, for the old chain or the one without its tip. |
| Store.FileStore.SaveBlock | internal/storage/filestore.go:202-270 | Writes exactly the listed files in order, one at a time, and the disk afterwards. |
| Store.FileStore.DisconnectBlock | internal/storage/filestore.go:284-304 | Writes exactly the listed files in order, and the disk afterwards. |
| Store.FileStore.RollbackConnect | internal/storage/filestore.go:456-483 | Only clears the journal if the tip was written; otherwise undoes the connect file by file. |
| Store.FileStore.RecoverJournal | internal/storage/filestore.go:428-454 | Writes the recovery sequence of the journal found, and leaves the recovered disk. |
| Store.FileStore.LoadTip | internal/storage/filestore.go:173-189 | Recovers first, then reports the tip on the recovered disk. |
| Store.FileStore.RepairHeightIndexFromTip | internal/storage/filestore.go:542-577 | Rewrites the active records from the tip down to the height and returns that record, or reports that there is none. |
| Store.FileStore.RepairHeightIndex | internal/storage/filestore.go:579-592 | Whatever the records were, those of the active chain are right afterwards. |
| Store.FileStore.RebuildBlock | internal/storage/filestore.go:650-697 | Replaying one stored block onto the files gives the set of the reference. |
| Store.FileStore.RebuildUtxo | internal/storage/filestore.go:635-699 | Rebuilding from blocks and tip alone gives the replay of the chain. |
| Store.FileStore.RepairIndexes | internal/storage/filestore.go:594-609 | From any height records and any unspent files, tip and blocks alone give back the maps that connecting maintains. |
| Blockchain.Chain.Open | internal/blockchain/blockchain.go:235-261 | Opening recovers the store a crash left, whatever gaps its records have; the object is valid exactly when there is none, and exactly then the work found for every stored block is the sum along its parents. |
| Blockchain.GapCountsNothing | internal/blockchain/blockchain.go:360-381 | On a store just opened, a stored block without its parent is given its own work alone, which is too little. |
| Blockchain.Chain.RebuildActiveChainwork | internal/blockchain/blockchain.go:294-335 | The rebuilt memo covers exactly the active chain and holds sums of work, on any recovered store. |
| Blockchain.Chain.ChainworkForHash | internal/blockchain/blockchain.go:337-381 | On any store with sound records the recursion returns what memo, list and records add up to; in a valid node that is the sum of work along the parents, the memo stays exact, and it ends because depth falls. |
| Blockchain.Chain.ActiveHeight | internal/blockchain/blockchain.go:816-829 | Finds the height of a block exactly when it is active. |
| Blockchain.Chain.NextRequiredBits | internal/blockchain/blockchain.go:1139-1148 | The bits required by the window of the 24 latest headers. |
| Blockchain.Chain.MedianTimePast | internal/blockchain/blockchain.go:1150-1173 | Walking stored parents gives the median of the window used for batches. |
| Blockchain.Chain.EnsureGenesis | internal/blockchain/blockchain.go:430-469 | On an empty chain the built-in block goes on exactly when its hash, work and transactions check, and then its hash meets its target; otherwise nothing happens. |
| Blockchain.Chain.ValidateActiveBlock | internal/blockchain/blockchain.go:491-564 | Accepts exactly the blocks valid on the active chain, with the right record and an exact difference; the hash of an accepted block does not exceed the target of its bits. |
| Blockchain.Chain.ConnectBlock | internal/blockchain/blockchain.go:477-489 | Succeeds exactly when the block is valid on the active chain; then the chain is one longer, and else unchanged. |
| Blockchain.Chain.DisconnectTip | internal/blockchain/blockchain.go:1562-1610 | Takes the tip off whenever there is more than the first block; all invariants stay. |
| Blockchain.Chain.RemoveOrphan | internal/blockchain/blockchain.go:787-814 | The four orphan maps afterwards: the block gone, its place in line closed, its parent's list shorter or dropped. |
| Blockchain.Chain.AddOrphan | internal/blockchain/blockchain.go:774-785 | All four orphan maps afterwards: the block last in line and last in its parent's list; exactly the oldest goes when 128 are waiting. |
| Blockchain.Chain.AcceptChild | internal/blockchain/blockchain.go:755-768 | An orphan is connected exactly when it still waits, extends the tip and is valid; then it leaves the pool and the side list, and no other orphan leaves its list. |
| Blockchain.Chain.AcceptOrphanChildren | internal/blockchain/blockchain.go:749-772 | Terminates; every block added waited in the pool, the first under the block; nothing is added exactly when no orphan filed there fits; what left the pool is active; and called for the tip it leaves the chain at rest: no orphan that waited on the new tip fits it. |
| Blockchain.Chain.BuildBranch | internal/blockchain/blockchain.go:852-869 | Walks listed parents back to the active fork, and finds the branch chain exactly when it is all listed. |
| Blockchain.Chain.AttachBranch | internal/blockchain/blockchain.go:905-942 | Connects the branch, or stops with the blocks before the refused one and the strays on top; orphans stray exactly when one fits below the branch tip, and else the branch is invalid. |
| Blockchain.Chain.ReconnectBlocks | internal/blockchain/blockchain.go:959-966 | Blocks taken off a valid chain go back on without fail, any time later. |
| Blockchain.Chain.SwitchToBranch | internal/blockchain/blockchain.go:882-927 | The branch is active, or the old chain is back and the branch is invalid, or orphans strayed, exactly when one fits below the branch tip, and the described state is left. |
| Blockchain.Chain.ActivateNodes | internal/blockchain/blockchain.go:871-948 | The same for both paths of the switch; the chain is another one after a failure exactly when orphans strayed. |
| Blockchain.Chain.TryActivateSideChain | internal/blockchain/blockchain.go:839-948 | A heavier fully listed branch becomes active, or the old chain is kept and the branch is invalid, or the switch goes astray: exactly when a waiting orphan fits the branch below its tip. With the clock unchanged both outcomes are characterised exactly by the state before. With the chain unchanged nothing leaves the side list; else only what is active now, was an orphan that left the pool, or is more than 288 below the tip. |
| Blockchain.NoneEarlyNoneAstray | internal/blockchain/blockchain.go:919-941 | When no orphan waits on a listed block below the branch tip, no switch to it goes astray. |
| Blockchain.Chain.ProcessSideBlock | internal/blockchain/blockchain.go:609-720 | With the chain unchanged, refused switches included, the side list is the old one and the block, at its height and summed work. A heavier fully listed branch becomes active or fails in one of the two ways named; the answer is Connected exactly when the block is the tip. |
| Blockchain.Chain.FindParent | internal/blockchain/blockchain.go:610-696 | A parent is found exactly when it is stored or listed, and at its height. |
| Blockchain.Chain.ProcessNext | internal/blockchain/blockchain.go:566-584 | A block on the tip is connected exactly when it is valid; the chain then has more work and is at rest with the orphans; a refusal changes no list. |
| Blockchain.Chain.ProcessBlock | internal/blockchain/blockchain.go:566-739 | The answer in every case, by the state before; what becomes of the side list and the orphan pool; all invariants stay; an accepted block is stored or listed; the chain is unchanged or its tip has strictly more work, but for a refused switch that went astray, with the condition for that on the state before. |
| Blockchain.Chain.ProcessInTurn | internal/blockchain/blockchain.go:566-739 | A child of a block that was just connected or listed is not answered as an orphan. |
| Blockchain.Chain.ListSideBlock | internal/blockchain/blockchain.go:391-403 | A side node records the height and the sum of work of its hash. |
| Blockchain.Chain.PruneSideBlocks | internal/blockchain/blockchain.go:1720-1731 | Forgets exactly the side blocks more than 288 below the tip. |
| Blockchain.Chain.DropNodes | internal/blockchain/blockchain.go:923-925 | The nodes of an activated branch, and only they, leave the side list. |
| Blockchain.Chain.StateFacts | internal/blockchain/blockchain.go:477-489 | In every reachable state: stored set is the replay, height index is the path, every active hash meets its target, money is bounded by issuance, and every work value is the sum along the parents. |
| Blockchain.GrownHeavier | internal/consensus/target.go:118-125 | A chain that grew has strictly more work at its tip. |
| HeaderBatch.PrependRecentEntry | internal/blockchain/blockchain.go:1306-1314 | Rolling the window over one header gives the window of the longer chain. |
| HeaderBatch.MedianTimeFromRecent | internal/blockchain/blockchain.go:1316-1331 | The loop computes the median of the 11 latest times. |
| HeaderBatch.RequiredInRange | internal/blockchain/blockchain.go:1293-1304 | Given usable parameters, the bits any window asks for never decode above the limit, and decode positive while a full window averages three or more. |
| HeaderBatch.RequiredBitsMean | internal/blockchain/blockchain.go:1293-1304 | The bits required on any headers: the parameters at the start, and from 24 on the encoding of the capped quotient of average times counted span, over the latest 24 targets and times. |
| HeaderBatch.CheckSequence | internal/blockchain/blockchain.go:1201-1276 | On a fixed snapshot and clock, a batch is accepted exactly when each header passes every rule on the headers below it; then every hash meets its target. |
| HeaderBatch.HeadersAgreeWithBlocks | internal/blockchain/blockchain.go:503-539 | For blocks with good bodies, batch acceptance is the same as connecting them one by one. |
| HeaderBatch.SameTipSamePath | internal/blockchain/blockchain.go:1265-1274 | Two valid chains of one length and tip hash are equal, so comparing the tip again rules out every change in between. |
| Blockchain.Chain.ConfirmTip | internal/blockchain/blockchain.go:1265-1274 | The final comparison succeeds exactly when the chain is the one the batch was checked on. |
| Blockchain.Chain.ValidateHeaderSequence | internal/blockchain/blockchain.go:1201-1276 | With the tip unchanged, accepts exactly what one-by-one validation accepts, and returns the hashes in order. |
| Consensus.DarkGravityWaveV3 | internal/consensus/target.go:69-106 | The loop with its running average computes the specified retarget. |
| Targets.RetargetLaw | internal/consensus/target.go:91-105 | The next target is average times span over target span, rounded down and capped by the limit, with the span held between a third and three times the target span. |
| Targets.RetargetMonotone | internal/consensus/target.go:91-105 | On the same targets, a longer span never gives a harder target. |
| Targets.WorkIsExpectedHashes | internal/consensus/target.go:118-136 | Exactly the hash values up to a target in range pass, target + 1 of the 2^256, and the work of a block is 2^256 over their number, rounded down. |
| Targets.CompactRounds | internal/consensus/target.go:26-67 | Decoding an encoding never exceeds the number and loses less than one part in 2^15. |
| Targets.CompactMonotone | internal/consensus/target.go:26-67 | A larger number never decodes smaller. |
| Targets.CanonicalIffFixed | internal/consensus/target.go:26-67 | A non-negative compact is reproduced by decoding and encoding exactly when it is canonical. |
| Targets.ReencodingIsStable | internal/consensus/target.go:41-67 | Encoding again after decoding changes nothing. |
| Targets.AverageLag | internal/consensus/target.go:77-91 | The sum of targets exceeds count times the floored average by at most count*(count-1)/2. |
| Targets.AverageBetween | internal/consensus/target.go:77-91 | The average lies between the least and the greatest target. |
| Targets.AverageFacts | internal/consensus/target.go:77-91 | After 24 steps the lag is between 0 and 276, and the average is positive and at most the limit. |
| Targets.NextTargetBounds | internal/consensus/target.go:93-105 | The next target lies between a third of the average and the lesser of three times it and the limit. |
| Targets.RetargetIsUsable | internal/consensus/target.go:69-106 | The returned bits never decode above the limit, and decode positive when the average is at least three. |
| PoolDag.InsertedOk | internal/mempool/mempool.go:261-282 | Inserting an admissible transaction keeps the conflict map, the inverse edges, acyclicity and the depth bound. |
| PoolDag.WithoutOk | internal/mempool/mempool.go:514-539 | Removing a descendant-closed set keeps all of them. |
| PoolDag.DescendsRank | internal/mempool/mempool.go:275-280 | The graph is acyclic: descent strictly raises the nesting rank of the id. |
| PoolDag.LeafExists | internal/mempool/mempool.go:440-458 | A non-empty pool has an entry without children. |
| PoolDag.DescSplit | internal/mempool/mempool.go:514-522 | The descendants of an entry are itself and those of its children, and it is not among the latter. |
| Mempool.ResolvedIsNamed | internal/mempool/mempool.go:659-676 | Wherever an input is found, on the chain or in the pool, it is the output its outpoint names. |
| Mempool.PassingIsSound | internal/mempool/mempool.go:610-752 | Whatever each input met while no lock was held, passing establishes facts that hashes alone decide, the fee included. |
| Mempool.CheckInputs | internal/mempool/mempool.go:649-744 | The input loop accepts exactly the transactions whose inputs pass in order, and lists the missing ones. |
| Mempool.ValidateTransaction | internal/mempool/mempool.go:610-752 | Accepts, or reports missing inputs, exactly under the stated conditions; acceptance is sound for good. |
| Mempool.PassingInput | internal/mempool/mempool.go:649-744 | What passing asks of an input that was found: unspent in the pool, verified, standard, and a hundred blocks old if a coinbase made it. |
| Mempool.RateIsCeiling | internal/mempool/mempool.go:417-422 | The fee rate is the fee per thousand bytes, rounded up. |
| Mempool.RelayFeeIs | internal/mempool/mempool.go:329-335 | The relay rule asks for one unit per byte. |
| Mempool.LowestFeeRateEntry | internal/mempool/mempool.go:424-438 | An entry of least fee rate. |
| Mempool.LowestEvictionCandidate | internal/mempool/mempool.go:440-465 | A leaf of least fee rate if there is any leaf, else the least of all. |
| Mempool.EvictionFindsLeaf | internal/mempool/mempool.go:459-464 | In a pool there always is a leaf, so the fallback is never reached. |
| TxPool.Pool.RemoveEntry | internal/mempool/mempool.go:514-539 | Removes exactly the entry and its descendants from all four maps, and terminates. |
| TxPool.Pool.RemoveForBlock | internal/mempool/mempool.go:582-608 | Removes exactly the descendants of entries in the block or sharing an input with it; the rest keeps its edges. |
| TxPool.Pool.AncestorDepth | internal/mempool/mempool.go:314-327 | The memoised recursion returns the depth of the recorded ancestry. |
| TxPool.Pool.CheckAncestorDepth | internal/mempool/mempool.go:288-312 | Passes exactly when the newcomer's depth would be at most 25. |
| TxPool.Pool.MakeRoom | internal/mempool/mempool.go:225-232 | Evicts a least-paying leaf exactly when the pool is full and the newcomer pays more. |
| TxPool.Pool.Insert | internal/mempool/mempool.go:266-282 | The four maps after an insertion. |
| TxPool.Pool.Commit | internal/mempool/mempool.go:222-284 | Whatever ran since validation: the pool stays valid, within its size, and is exactly the old one, the one with room made, or that with the newcomer; it is refused and still costs an entry exactly when a leaf went and, by the old pool, the newcomer does not fit without it. |
| Mempool.FitsIs | internal/mempool/mempool.go:233-265 | The checks after an eviction, read off the pool before it. |
| PoolLoss.EvictedForNothing | internal/mempool/mempool.go:225-265 | A run on which a full pool refuses a conflicting newcomer and has lost its cheapest leaf. |
| TxPool.Pool.AddOrphan | internal/mempool/mempool.go:467-493 | Files an orphan under every missing input; when full, one other goes; the count stays bounded. |
| TxPool.Pool.DeleteOrphan | internal/mempool/mempool.go:495-512 | Removes an orphan and exactly its references. |
| TxPool.Pool.Add | internal/mempool/mempool.go:203-286 | Undisturbed, it succeeds exactly when validation passes on the present pool and the entry fits after room is made; the pool left by every failure, and by a success that nothing waited for; the orphan case; termination of the mutual recursion with promotion; and what waited for an accepted transaction was tried. |
| TxPool.Pool.Candidates | internal/mempool/mempool.go:544-562 | Exactly the untried orphans that wait on an output of the parent. |
| TxPool.Pool.PromoteOrphans | internal/mempool/mempool.go:541-575 | Terminates, keeps every invariant and never adds an orphan; every orphan that waits on the parent is tried unless it has left the orphan pool by its turn; while there is room it gets in exactly when it validates and fits on the pool it meets, and what stays an orphan did not validate there. |
| TxPool.Pool.EntriesTopological | internal/mempool/mempool.go:132-166 | Lists every entry once, each after all its recorded parents; the first ones under a limit. |
| Mining.CoinbasesDifferByHeight | internal/mining/miner.go:254-292 | Template coinbases for different heights differ. |
| Mining.ListingIsCompatible | internal/mining/miner.go:173-191 | The pool's listing has distinct vetted transactions that share no input. |
| Mining.TemplateTxIsBuildable | internal/mining/miner.go:230-248 | Accepts exactly the transactions whose inputs are selected or stored and mature. |
| Mining.SelectTransactions | internal/mining/miner.go:182-191 | The loop selects the specified transactions and their fee sum does not overflow. |
| Mining.LeftOutIsUnfit | internal/mining/miner.go:182-248 | Every listed entry is taken, or has an input that is absent or immature on the set that applying the coinbase and the transactions taken before it gives. |
| Mining.ClaimIsFees | internal/mining/miner.go:187-192 | The coinbase pays the given key hash exactly the subsidy and what the transactions pay when they run one after another. |
| Mining.InputsReady | internal/mining/miner.go:182-191 | Every input of every selected transaction resolves and is mature when its turn comes, none is used twice, and the recomputed fee is the pool's. |
| Mining.FeesFit | internal/mining/miner.go:187-192 | The fees of a selection never exceed the worth of the unspent set. |
| Mining.TemplateAccepted | internal/mining/miner.go:157-224 | A template passes the whole reference validator, its coinbase claim included, once it meets the limits the builder does not enforce. |
| Mining.TemplateConnects | internal/mining/miner.go:157-224 | With a mined header and a coinbase no active block carried, such a template is a block the active chain connects. |
| Mining.NewBlockTemplate | internal/mining/miner.go:157-224 | The template asks for the bits required next, takes every entry that fits and claims exactly subsidy and fees; it is acceptable as above, and with a mined header on an allowed time it is a valid block. |
| ScriptVM.ValidateScriptStructure | internal/script/script.go:610-663 | Accepts exactly the programs whose pushes fit and whose conditionals close. |
| ScriptVM.WellFormedIffStructured | internal/script/script.go:610-663 | These are exactly the programs that have a tree of steps and conditionals with repeated ELSE, and the tree is unique. |
| ScriptVM.MachineRuns | internal/script/script.go:689-772 | The flat machine runs a flattened block as the tree means, and skips it when inactive. |
| ScriptVM.FlatIsStructured | internal/script/script.go:676-882 | After validation the flat machine gives the tree's result or error, never a malformed script, and ends with no open condition. |
| ScriptVM.PopItems | internal/script/script.go:836-857 | Fills keys or signatures from the top of the stack down. |
| ScriptVM.CheckMultiSig | internal/script/script.go:824-873 | The stack effect and errors of CHECKMULTISIG, dummy item included. |
| ScriptVM.EvalPushScriptWithHooks | internal/script/script.go:676-882 | Malformed exactly when the validator says so, and otherwise what the unique tree means. |
| ScriptTemplates.EvalOp | internal/script/script.go:775-876 | What each opcode does to any stack, from a program of one byte. |
| ScriptTemplates.EvalPubKeyHash | internal/script/script.go:676-882 | Pay to public-key hash on a signature and a key: an error unless the key hashes to the named value, and then the answer of the signature check. |
| ScriptTemplates.EvalScriptHash | internal/script/script.go:676-882 | HASH160, hash, EQUAL on a script: whether it hashes to the named value. |
| ScriptTemplates.EvalMultiSig | internal/script/script.go:824-873 | The multisig template on a dummy and m signatures leaves the hook's answer, which it gives on signatures and keys in the order pushed. |
| ScriptTemplates.EvalChoice | internal/script/script.go:689-772 | IF or NOTIF with an ELSE takes the arm that the condition says; any non-zero byte makes it true. |
| PushData.ReadPushData | internal/script/script.go:556-594 | Reads the first push and leaves the rest. |
| PushData.ReadWritten | internal/script/script.go:531-594 | Reading what the writer wrote gives the data and the rest back. |
| PushData.EncodePushes | internal/script/script.go:521-529 | Succeeds exactly when every push fits, with the encoding of the list. |
| PushData.ParsePushes | internal/script/script.go:508-519 | The loop reads a whole push-only script or fails. |
| PushData.ParseEncoded | internal/script/script.go:508-529 | Parsing an encoded list gives the list back. |
| PushData.ParseMultiSigScript | internal/script/script.go:923-957 | Returns the counts and keys of exactly the scripts that are a multisig template. |
| PushData.MatchSignatures | internal/script/script.go:374-398 | Greedy matching accepts exactly when all signatures parse and a strictly increasing choice of keys verifies them. |
| Base58.RecodeBack | internal/address/base58.go:61-103 | Changing base there and back is the identity on all digit sequences, leading zeros included. |
| Base58.EncodeBase58 | internal/address/base58.go:61-81 | The division loop, the zeros and the in-place reversal give the encoding. |
| Base58.DecodeBase58 | internal/address/base58.go:83-103 | The loop decodes exactly the alphabet strings. |
| Base58.SameNumber | internal/address/base58.go:61-81 | The text spells the number of the bytes, highest digit first, with one leading `1` for each leading zero byte. |
| Base58.KnownTexts | internal/address/base58.go:61-81 | Three texts. |
| Base58.DecodeEncode | internal/address/base58.go:61-103 | Every byte string survives encoding. |
| Base58.EncodeDecode | internal/address/base58.go:61-103 | Every alphabet string is the encoding of what it decodes to. |
| Base58.DecodeBase58Check | internal/address/base58.go:34-51 | Accepts exactly the texts of a version, a payload and their checksum, and returns those. |
| Base58.CheckedTextsDiffer | internal/address/base58.go:25-51 | Distinct versions or payloads have distinct texts. |

## Left out

- Blockchain.Chain.ProcessBlock: that the active tip has the most work of all known blocks is not claimed, because a branch through a stored block that is no longer listed is never activated.
- Blockchain.Chain.ValidateHeaderSequence: hashing outside the lock is modelled by `HeaderBatch.CheckSequence` on a snapshot and `ConfirmTip` on whatever chain is there afterwards; the composed method runs undisturbed.
- Blockchain.Chain.EnsureGenesis: the mode without a fixed genesis hash, which leaves a placeholder tip at height -1, is not modelled.
- Blockchain.Chain.RebuildActiveChainwork: the fallback for a height index with holes, which no save, disconnect or recovery leaves, is not modelled.
- Blockchain.Chain.Open: a store whose records have a gap is opened, but what the node does from there on is not followed.
- TxPool.Pool.PromoteOrphans: it is an undisturbed run; other threads may keep adding orphans and change the pool between two attempts.
- TxPool.Pool.Add: acceptance is characterised for an undisturbed run; for any other run only what `Mempool.ValidateTransaction` and `TxPool.Pool.Commit` state. The pool after promotions is stated only through their own contracts.
- TxPool.Pool.EntriesTopological: the order among unrelated entries, which the code takes from the hexadecimal ids, is left open.
- Mining.NewBlockTemplate: the source reads tip, bits, pool and unspent outputs under separate locks; here they are one consistent snapshot.
- Mining.TemplateAccepted: block size, block-wide signature operations, finality and the header time are conditions here, because the builder does not enforce them.
- The optional transaction and address indexes, and with them the check that a transaction is already confirmed.
- Write errors other than crashes, and the error branches of a switch that follow from them; the proofs show that the restoring branches are otherwise not reached.
- A crash in the middle of the unjournaled repair routines.
- Parsing work values from text, JSON, file names and directory layout; heights are unbounded integers except in the issuance report and the coinbase.
- In-place edits of a slice that another loop still reads, in the orphan acceptance of the chain: the loop here reads the list as it was.
- Replacement by fee, which a constant switches off: every conflict is refused.
- The pool's own reader of pushes and its script policy; they are uninterpreted here.
- Preview of block proposals, locators, header service, statistics, networking, mining threads and everything else outside the ledger core.
