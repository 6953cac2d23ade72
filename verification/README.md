# Verified model of the node core

This project models the storage and synchronisation core of a blockchain full node and
proves what that core promises.

* **Fork tree and persistence.** Executed blocks live in a tree with three cursors: the
  durable root, the scheduled root and the head. `Blocks`, `ForkTree`, `StateView` and
  `SideEviction` define the tree and its operations on values. `TreeOps`, `BlockStore`,
  `History` and `EngineOps` hold the classes that run them, with fields updated in place.
  `Engine` is the step system over tree, block database and state database: every step makes
  at most one atomic write, so the states between steps are the states a crash can expose.
  `EngineInv` and `EngineRuns` prove the invariant of every run, `RollPolicy` how far inserts
  move the root, `Recovery` and `ForkChoice` when a restart reaches the persisted head,
  `Readers`, `Views` and `Pins` the lock-free readers, `TxFold` the reported transaction changes.
* **Ordered parallel pipeline.** `Ring` is the bounded ring, `Pipeline` its feeder, decoders
  and applier in every interleaving.
* **Window downloader.** `Downloader` turns responses in any order into one contiguous stream.
* **JSON.** `JsonText`, `JsonSplit`, `JsonValue` and `JsonRoundTrip` cover the string escaper,
  the splitters and their agreement with the compact printer.
* **Smaller cores.** `ActionTree` (transaction action analysis), `Interest` (floor-compounded
  interest), `OrderedList`, `TxPool`, `Topology` and `PeerTable` (bounded ordered lists).

## Modelling decisions

* A block is a value that contains its predecessor, so the block stands for its hash: equal
  hashes are equal blocks. `digest` is the hash read as a number, used only to order blocks.
* A chunk (`StateChunkRef`) is an identity value: `uid` stands for its address, so chunk
  equality is pointer equality. Children lists, the set of disk-backed chunks and the set of
  frozen chunks are the mutable parts and live in `Forest`.
* The fork-choice key is a real number; only its order is used. The key of a height, which a
  chunk born as a root gets (base/src/state/chunk.rs:190-205), is that height. Recovery is
  stated for every function `score` from a block and its parent's key to the block's key: the
  branch history consensus is handed answers with the block's own ancestors
  (`History.BranchLookup`). Execution is uninterpreted: each block carries the layer of writes
  it makes.
* Answers of consensus, execution and disks are parameters (`key`, `verified`, `executed`,
  `accepts...`). A batch write is one atomic step.
* A lookup by a reader is not atomic: each chunk's source is read at some moment and the disk
  at a later one, with any engine steps in between.

## Properties that hold only under a condition

* *Boot accepts after every crash.* False in exactly one family of states: a side body was
  stored while the cursor was still 0 (`EngineInv.BootAcceptsIff`).
  `EngineRuns.EarlySideBodyBlocksBoot` gives the step that leads there, and
  `EngineRuns.RisingRunBoots` shows that it cannot arise when side blocks outrank their parents.
  The default key is the height (base/src/chain/consensus.rs:41-48), under which a first block
  always outranks genesis: the family arises only for a consensus that overrides the key.
* *After an accepted crash boot replays to the persisted head.* True of a restart exactly when
  every stored block above the persisted root outranks its predecessor, by the keys the replay
  computes (`Recovery.ReplayFinishesIff`). `ForkChoice.DippingRun` reaches a store where this
  fails: keys 10 and 11 on one branch, then 5, 3 and 12 on another. A dip within the first
  window above the root is final, however often the node restarts
  (`ForkChoice.DipNeverRecovers`); above it a restart may start from a higher root. Runs whose
  blocks outrank their parents keep every live chunk above its parent
  (`ForkChoice.RisingRunLive`), and recover, when keys ignore the parent's key, exactly when the
  first stored block outranks the restarted root, whose key is its height
  (`ForkChoice.RisingRunRecovers`). With the default key every run recovers
  (`ForkChoice.DefaultRunRecovers`).
* *A pinned view stays readable.* True through root moves and reorgs; it ends exactly when an
  eviction drops a side branch that starts strictly between the pin and the tip
  (`Pins.ReadableIff`, `Pins.NoCapacityNoSideView`).
* *The history finds nothing above the head.* At a height above the head it finds nothing
  exactly when the height is above the cursor, so a boot replay sees stored blocks there
  (`History.LookupIsCanonical`). A branch history above its parent answers from the canonical
  chain (`History.BranchLookup`).
* *Folding the reported transactions gives the canonical set.* True for one head move exactly
  when no transaction that only the old branch has above the fork point also lies at or below it
  (`TxFold.TxDiffFolds`). `TxFold.RepeatIsLost` gives a head move that loses one.
* *A captured view validates as long as its tip is live.* True, and it validates only then unless
  the tip's block was attached anew, since validation asks for the hash (`Views.ViewPassesIff`).
* *A reorg write keeps the height index without gaps.* True exactly for paths that start no higher
  than right above the cursor (`BlockStore.ReorgKeepsWholeIff`); the engine writes no others
  (`EngineInv.SaveAccepted`).
* *An unchanged epoch means an unchanged head.* True unless the head moved a positive multiple
  of 2^64 times (`Readers.EpochSeesHead`).
* *Fast sync attaches every extension of the head.* True for a window of at least one; with a
  window of zero it attaches nothing (`EngineInv.ZeroWindowRefusesLinear`).
* *A printed value validates.* True exactly up to one level past the depth limit
  (`JsonRoundTrip.PrintedIsValue`); a printed object splits exactly when its members nest within
  the limit and no key needs an escape (`JsonRoundTrip.SplitPrintedObject`).

## Model

| member | source | states |
|---|---|---|
| StateView.LookupIsState | base/src/state/chunk.rs:476-509 | a view over a disk that has reached any ancestor of its block, however far its own root lags, reads exactly the state after its block |
| StateView.WriteRootBatch | chain/src/persist.rs:208-218 | the streamed batch, in whatever order each layer yields its keys, gives every key the last write of the chain and both root markers |
| StateView.FlattenIsState | chain/src/persist.rs:208-214 | flattening a branch oldest first onto the state of its base gives the state of its tip |
| StateView.RootAdvancePreservesMeaning | chain/src/persist.rs:23-34 | for every live chunk at or below the new root the lookup is the same before the batch, after the batch and after the promotion |
| StateView.PrunedBranchReadsNewRoot | chain/src/persist.rs:28-34 | a chunk the new root prunes reads the winning branch's value for keys its own branch never wrote: the window readers must detect |
| ForkTree.ForkPointLowest | chain/src/tree.rs:457-509 | the two-pointer walk meets at the lowest common ancestor |
| ForkTree.FindComplete | chain/src/tree.rs:580-592 | searching along the ancestry of a hash finds every live chunk |
| ForkTree.InTreeUnique | chain/src/tree.rs:202-230 | a block is held by at most one live chunk |
| ForkTree.AttachValid | chain/src/tree.rs:202-286 | attaching keeps the tree valid, makes exactly the new chunk live and loses no live chunk |
| ForkTree.CommitRollValid | chain/src/tree.rs:355-370 | committing a valid roll leaves exactly the descendants of the new root live |
| TreeOps.Tree.constructor | chain/src/tree.rs:72-82 | a new tree is one disk-backed root that is root, scheduled root and head |
| TreeOps.Tree.Find | chain/src/tree.rs:580-592 | the stack search with its head-first shortcut agrees with plain search along the ancestry |
| TreeOps.Tree.PlanRollFrom | chain/src/tree.rs:596-629 | the cursor loops return the branch from the scheduled root to the planned height, or nothing when it does not advance or leaves the scheduled root |
| TreeOps.Tree.ValidateRoll | chain/src/tree.rs:512-576 | accepts exactly the rolls from the current root, along an unbroken chain, to a chunk the head descends from |
| TreeOps.Tree.CommitRoll | chain/src/tree.rs:355-370 | a refused job changes nothing, a valid one moves the root, and the final head check cannot fail |
| TreeOps.Tree.Attach | chain/src/tree.rs:202-286 | strict and linear attach: refused unchanged, or the new tree with head, epoch, scheduled root, roll and transaction changes |
| TreeOps.Tree.AttachSide | chain/src/tree.rs:290-330 | a side attach adds the chunk to its parent's list and moves neither head, epoch nor scheduled root |
| TreeOps.Tree.CanonicalTxDiff | chain/src/tree.rs:457-509 | the three walking loops yield both branches above the fork point less what they share |
| TreeOps.Tree.BackHashes | chain/src/tree.rs:440-452 | the heights and hashes of the head's branch, newest first, at most the depth and never past the root |
| TreeOps.Tree.BranchBlocks | chain/src/tree.rs:148-167 | the blocks from the durable root to the named live block, oldest first |
| TreeOps.Tree.SideRoots | chain/src/tree.rs:646-656 | lists each side branch's first chunk exactly once |
| TreeOps.SortWeakest | chain/src/tree.rs:657-666 | a permutation in ascending fork choice, then hash |
| TreeOps.Tree.CountSide | chain/src/tree.rs:668-678 | counting by canonical hash gives the number of side chunks |
| TreeOps.Tree.EnforceSideCapacity | chain/src/tree.rs:632-692 | the loop removes the shortest prefix of the ordered side branches that reaches the bound, and never runs out first |
| SideEviction.CutAllLeavesNone | chain/src/tree.rs:680-691 | cutting every side branch leaves no side chunk, so eviction always reaches its bound |
| SideEviction.EvictedKeeps | chain/src/tree.rs:632-692 | eviction ends within capacity and keeps root, head, scheduled root and the whole canonical path |
| SideEviction.WithinCapacityUnchanged | chain/src/tree.rs:680-680 | within capacity nothing is dropped |
| SideEviction.EvictionDeterministic | chain/src/tree.rs:342-347 | without ties every eviction of a tree leaves the same tree |
| SideEviction.WeakestGo | chain/src/tree.rs:657-666 | a side branch that is dropped has no higher fork choice, and at equal fork choice no higher hash, than one that stays |
| SideEviction.NoneInVain | chain/src/tree.rs:680-691 | the strongest dropped side branch, put back alone, would exceed the capacity |
| TxFold.TxDiffFolds | chain/src/tree.rs:457-509 | applying one report to the old head's transactions gives the new head's exactly when no transaction that only the old branch has above the fork point lies at or below it |
| TxFold.RepeatIsLost | chain/src/tree.rs:457-509 | a head that repeats a transaction of the root is replaced by its sibling: the fold drops the transaction although it stays confirmed |
| TxFold.AttachFolds | chain/src/tree.rs:269-285 | an attach on a branch without repeats reports exactly the change of the canonical set |
| TxFold.FoldIsCanonical | chain/src/tree.rs:269-285 | over every run of attaches, side attaches, root commits and evictions the folded reports are the canonical transactions |
| BlockStore.KvBlockStore.PutBlock | db/src/block_store.rs:82-89 | stores a body alone, refuses genesis, changes nothing when the disk refuses |
| BlockStore.KvBlockStore.PutBlockAvailable | db/src/block_store.rs:91-110 | body, index and cursor move together, only to the next height |
| BlockStore.KvBlockStore.CommitReorg | db/src/block_store.rs:112-171 | accepts exactly contiguous paths with known bodies that end in the new block, and rewrites path, stale tail and cursor in one batch |
| BlockStore.AppendIndexes | db/src/block_store.rs:91-110 | appending a child of the indexed tip is accepted and indexes exactly the child's branch |
| BlockStore.ReorgIndexes | db/src/block_store.rs:112-171 | a reorg path from just above a shared ancestor is accepted and leaves the index exactly on the new branch |
| BlockStore.WritesKeepWhole | db/src/block_store.rs:82-110 | whatever they are called with, body writes and appends leave no gap in the index and no indexed block without its body |
| BlockStore.ReorgKeepsWholeIff | db/src/block_store.rs:112-171 | an accepted reorg keeps the index whole exactly when its path starts no higher than right above the cursor |
| BlockStore.ReorgAcceptedMeans | db/src/block_store.rs:112-150 | an accepted path climbs one height at a time from at least one, through stored blocks, to the new block |
| EngineInv.StepKeepsInv | chain/src/engine.rs:356-444 | every step, crash and boot included, keeps the invariant of tree, block store, state database and roll queue |
| EngineInv.SaveAccepted | chain/src/engine.rs:407-437 | the block write of a reachable state is accepted and leaves the index on the new head's branch |
| EngineInv.PlanNeverFails | chain/src/tree.rs:246-278 | in a reachable state every block that may attach does attach, in either mode |
| EngineInv.ZeroWindowRefusesLinear | chain/src/tree.rs:246-278 | with a window of zero linear attach refuses everything |
| EngineInv.AttachTree | chain/src/tree.rs:231-278 | after an attach root, scheduled root and head lie on one path, the head is within the window of the scheduled root, and the roll handed on starts at the scheduled root |
| EngineInv.CrashSafe | chain/src/boot.rs:53-83 | at every point the markers name a block at or below the cursor, indexed and stored, whose state the state database holds, and the index is one hash-linked chain |
| EngineInv.BootAcceptsIff | chain/src/boot.rs:104-124 | boot accepts exactly when the cursor is positive or nothing is stored |
| Engine.BootAcceptsMeans | chain/src/boot.rs:53-124 | for every disk boot accepts exactly markers that name one block at or below the cursor, genesis or indexed and stored, and no record without a cursor |
| EngineInv.KeepsReplaySide | chain/src/boot.rs:276-303 | re-attaching a stored side block after the replay, stronger than the head or not, keeps the invariant |
| EngineInv.KeepsCrash | chain/src/engine.rs:892-957 | boot starts from the persisted root and replays to the persisted head |
| EngineRuns.FreshInv | chain/src/boot.rs:127-147 | a fresh database satisfies the invariant and boots |
| EngineRuns.RunInv | chain/src/engine.rs:381-444 | the invariant holds in every state of every run |
| EngineRuns.RunCrashSafe | chain/src/persist.rs:23-34 | whatever a run was doing, what is on disk is sound |
| EngineRuns.QuietAgreement | chain/src/engine.rs:407-437 | between inserts the index is the canonical path, the cursor the head height, and every live block above the root is stored |
| EngineRuns.StoreNeverRefuses | db/src/block_store.rs:82-171 | no run meets a gap, a missing body or a broken path |
| EngineRuns.CursorsOnOnePath | chain/src/tree.rs:231-278 | in every state of every run root, scheduled root and head lie on one path and the head is within the window of the scheduled root |
| RollPolicy.RollMovesBy | chain/src/tree.rs:251-264 | an attach rolls exactly when it would leave the window; a strict roll moves the scheduled root by one block and leaves the head a full window above it, a linear roll moves it by a whole window |
| RollPolicy.RootStaysBack | chain/src/tree.rs:251-264 | in strict runs from a fresh database the durable root is genesis or at least the window below the highest head so far |
| RollPolicy.LiveCanWin | chain/src/apply.rs:153-193 | between inserts any unseen block on any live chunk up to the head passes the checks and becomes head if its key beats the head's |
| RollPolicy.RivalCanWin | chain/src/apply.rs:153-193 | in such runs a rival that leaves the canonical branch at any height the highest head is at most the window above can still become head |
| EngineRuns.RollsValidateInOrder | chain/src/sync.rs:461-484 | a queued roll validates exactly when it is the next in order |
| EngineRuns.PersistAdvances | chain/src/engine.rs:381-444 | while jobs are queued the next persistence step is enabled and uses up work |
| EngineRuns.Drains | chain/src/sync.rs:461-484 | the persister alone can always drain its queue, without moving the head |
| EngineRuns.RisingRunBoots | chain/src/boot.rs:104-124 | when side blocks outrank their parents boot accepts after a crash anywhere in any run |
| EngineRuns.EarlySideBodyBlocksBoot | chain/src/apply.rs:269-279 | a first block that does not outrank genesis, under a consensus that overrides the key, is stored as a side body, after which boot is refused |
| Recovery.ReplayAdvances | chain/src/boot.rs:151-185 | boot can always attach the next stored block when its key beats the head's |
| Recovery.FinishedHasRisen | chain/src/tree.rs:246-250 | a restart that ever ends its replay has met only blocks that outrank their predecessors |
| Recovery.ReplayFinishesIff | chain/src/boot.rs:53-100 | for every fork choice, boot's replay can reach the persisted head, persist what rolls and reopen in agreement if and only if every stored block above the persisted root outranks its predecessor |
| ForkChoice.DipNeverRecovers | chain/src/tree.rs:246-250 | a stored block within the first window above the root that does not outrank its predecessor keeps the node replaying through any number of restarts |
| ForkChoice.DippingRun | chain/src/apply.rs:105-125 | strict inserts from a fresh database reach a bootable store with such a block |
| ForkChoice.RisingRunLive | chain/src/tree.rs:246-250 | if every block outranks its parent when attached, every live chunk outranks its parent in every state of the run |
| ForkChoice.RisingRunRecovers | base/src/state/chunk.rs:190-205 | for keys that ignore the parent's, such runs boot after a crash anywhere and recover exactly when the first stored block outranks the restarted root |
| ForkChoice.DefaultRunRecovers | base/src/chain/consensus.rs:41-48 | with the default key every run boots and recovers after a crash anywhere |
| EngineOps.ChainEngine.RollRoot | chain/src/persist.rs:16-50 | succeeds exactly when the roll validates and the disk accepts; any failure leaves the state unavailable and disk and tree unchanged |
| EngineOps.ChainEngine.SaveHead | chain/src/engine.rs:407-437 | writes the block or the reorg path above the durable root, and trims side branches after a reorg |
| EngineOps.ChainEngine.PersistOne | chain/src/engine.rs:381-444 | persists one job to the end exactly when store, tree and disk accept; a refused block write changes nothing, a refused root move leaves the block saved, disk and root as they were and the state unavailable |
| EngineOps.PersistedIsTrace | chain/src/engine.rs:381-444 | persisting a job performs exactly the engine's steps: save, trim after a reorg, then the four steps of the root move |
| EngineOps.PersistNeverRefused | chain/src/engine.rs:381-444 | in a reachable state neither store nor tree refuses the first job |
| EngineOps.ChainEngine.CheckBlock | chain/src/apply.rs:145-193 | the ordered checks pass exactly for blocks in range, unseen, with their parent in the tree at the height below, and the first that fails names the refusal |
| EngineOps.ChainEngine.PrepareOne | chain/src/engine.rs:356-376 | which blocks become head or join a side branch, why each other one is turned away, and the state each outcome leaves; the tree refuses no block that passed the checks and beats the head |
| EngineOps.SideInsertIsTrace | chain/src/apply.rs:269-296 | a strict side insert performs body, attach and trim in that order |
| Readers.WalkReadsState | base/src/state/chunk.rs:476-509 | a lookup spread over any engine steps reads the tip's state as long as the disk stays on the tip's branch |
| Readers.ReachedClimbs | chain/src/persist.rs:23-34 | disk and root only move up the canonical branch |
| Readers.ValidationSeesBranch | chain/src/view.rs:76-78 | a passed validation means the disk had not left the tip's branch when the flag was read |
| Readers.ValidatedReadIsTipState | chain/src/view.rs:76-78 | under every interleaving with root moves a validated read is the captured tip's state |
| Views.ViewValidIffLive | chain/src/view.rs:76-78 | validation passes exactly when the flag is up and some live chunk holds the tip's block |
| Views.ViewPassesIff | chain/src/view.rs:76-78 | a captured view validates when no root move since has left its branch and no eviction has dropped it, and only then unless its block was attached anew |
| Readers.EpochSeesHead | chain/src/view.rs:70-74 | equal epochs mean a multiple of 2^64 head moves, and below that many an unchanged head |
| Readers.OptimisticReadIsHeadState | chain/src/view.rs:47-74 | a read of the captured head that validates against its epoch is that head's state |
| Pins.ReadableKeeps | chain/src/tree.rs:115-126 | in a readable view no weak parent link between pin and tip has expired |
| Pins.ReadableIff | chain/src/tree.rs:432-437 | a pinned view is readable exactly until an eviction drops a side branch starting strictly between pin and tip |
| Pins.LookupStaysPinned | base/src/state/chunk.rs:476-509 | a lookup never follows a parent link past the pin |
| Pins.NoCapacityNoSideView | chain/src/apply.rs:295-296 | with no side capacity every view whose parent is off the canonical path stops being readable |
| History.StoreHistory.Forget | chain/src/history.rs:58-66 | removes the entry only when it holds the named hash |
| History.StoreHistory.BlockAtHeight | chain/src/history.rs:99-132 | genesis, then the cache, then the store with its identity check |
| History.StoreHistory.ForBranch | chain/src/history.rs:74-82 | builds the overlay by height |
| History.StoreHistory.NotifyStable | chain/src/persist.rs:54-163 | whatever fails on the way, the cache changes at stable heights only and never to another block; if nothing fails no stable block stays cached |
| History.HistStep | chain/src/engine.rs:364-376 | every engine step keeps the cache canonical and bridging the heights the store lacks |
| History.FreshRemembers | chain/src/boot.rs:127-147 | the cache is right in a fresh database |
| History.RunRemembers | chain/src/history.rs:42-66 | the cache is right in every state of every run |
| History.RunForgets | chain/src/persist.rs:54-163 | in runs where no announcement fails the cache holds, outside a root move, only heights above the durable root |
| History.LookupIsCanonical | chain/src/history.rs:99-132 | outside an unfinished reorg the lookup is the canonical block up to the head, and above it finds nothing exactly above the cursor |
| History.CachedIsCanonical | chain/src/history.rs:99-132 | a cached height is answered canonically in every state, an unfinished reorg included |
| History.LookupNeverLies | chain/src/history.rs:99-132 | whatever the store holds, a lookup answers with the block indexed at the height and stored under its own hash, or reports an error |
| History.BranchBlocksAreBranch | chain/src/apply.rs:115-120 | the blocks handed over are the candidate parent's branch by height |
| History.BranchLookup | chain/src/history.rs:135-145 | a branch history answers with the parent's own ancestor at every height up to the parent, in every state |
| Ring.SlotRing.Reserve | chain/src/ring.rs:51-61 | waits exactly at capacity, stops when stopped, else takes one reservation |
| Ring.SlotRing.Release | chain/src/ring.rs:63-68 | gives one reservation back |
| Ring.SlotRing.PublishReserved | chain/src/ring.rs:70-84 | fills the job's own slot, or gives the reservation back after a stop |
| Ring.SlotRing.Take | chain/src/ring.rs:86-108 | takes the wanted slot, or ends only when stopped or past the end |
| Ring.SlotRing.Close | chain/src/ring.rs:110-114 | fixes the number of jobs and changes nothing else |
| Ring.SlotRing.StopAll | chain/src/ring.rs:116-120 | raises the stop flag and changes nothing else |
| Pipeline.StepKeepsInv | chain/src/sync.rs:357-457 | every step of feeder, decoders and applier keeps the pipeline invariant |
| Pipeline.SlotFree | chain/src/ring.rs:70-84 | the slot a decoder publishes into is empty and its job fits the ring |
| Pipeline.StepIsRingCall | chain/src/ring.rs:51-120 | what a step of any thread does to the ring is the effect of one ring method that may be called there, does not wait, and whose reply decides where the thread goes |
| Pipeline.RunDeliversInOrder | chain/src/sync.rs:498-570 | in every interleaving the applier takes 0, 1, 2, ... each once, reservations stay within capacity, live jobs share no slot, and an applier that ends unstopped has taken every job sent |
| Pipeline.RankFalls | chain/src/sync.rs:357-457 | every step but a new batch uses up work, so the pipeline ends once the source does |
| Pipeline.NeverStuck | chain/src/sync.rs:639-700 | in every unfinished reachable state some thread can move on its own |
| Downloader.SyncSession.FillWindow | node/src/sync_pipeline.rs:406-462 | asks for consecutive windows until three are in flight or the tip is covered; a request that cannot be sent is withdrawn and ends the session |
| Downloader.SyncSession.HandleBlocks | node/src/sync_pipeline.rs:521-606 | ignores unknown requests, breaks on a wrong start, refuses a response that does not advance, else buffers and hands on what is next |
| Downloader.DrainConsecutive | node/src/sync_pipeline.rs:562-598 | a drain of well-formed responses hands on consecutive batches from the applied height and meets none that does not advance |
| Downloader.ShortAdvance | node/src/sync_pipeline.rs:590-597 | a short batch discards the rest of the plan and resumes right behind itself |
| Downloader.LastWindow | node/src/sync_pipeline.rs:566-571 | a partial batch that reaches the tip is the last of the plan |
| Downloader.NextKeeps | node/src/sync_pipeline.rs:406-606 | every request and response keeps the plan exactly the window grid from the applied height to the next request |
| Downloader.RunIsContiguous | node/src/sync_pipeline.rs:521-632 | for any order, short responses and growing tip the batches cover consecutive heights from the start |
| Downloader.NextHeightIsCovered | node/src/sync_pipeline.rs:123-126 | the next needed height is in flight, or can be asked for now, or everything up to the tip is handed on |
| Downloader.LastResponseFinishes | node/src/sync_pipeline.rs:600-605 | the caught-up answer is given exactly when nothing is in flight or left to ask for |
| Downloader.TipIsLargest | node/src/sync_pipeline.rs:553-556 | in every state of every run the tip is the largest announced: at least the first and that of every response heard, and one of them |
| Downloader.CaughtUpReachesTip | node/src/sync_pipeline.rs:600-605 | a caught-up answer means that the stream reaches the largest tip ever announced |
| Downloader.WindowKept | node/src/sync_pipeline.rs:406-437 | never more than three requests are in flight |
| Downloader.FillsWindow | node/src/sync_pipeline.rs:406-437 | filling stops only at three requests in flight or past the tip |
| Downloader.OnlyShortDiscards | node/src/sync_pipeline.rs:562-597 | a batch discards the plan behind it exactly when it ends before both its window and the tip |
| JsonText.JsonEscape | field/src/json.rs:196-232 | the quoted escape of section 7 of RFC 8259 |
| JsonText.QuotedDecoded | field/src/json.rs:369-449 | decodes escapes and surrogate pairs up to a closing quote that ends the text |
| JsonText.DecodeEscape | field/src/json.rs:196-232 | decoding an escaped string gives it back, for every string |
| JsonText.SimpleEscapes | field/src/json.rs:396-436 | each two-character escape of section 7 of RFC 8259 stands for its character and no other letter is accepted |
| JsonText.EscapeTable | field/src/json.rs:196-214 | the escaper writes the short escape where there is one, four hex digits for other control characters, and everything else as it is |
| JsonText.DecodeUtf16All | field/src/json.rs:405-434 | a string sent as four-digit escapes, with surrogate pairs beyond U+FFFF, decodes to itself |
| JsonText.LoneSurrogateRefused | field/src/json.rs:405-434 | a surrogate without its partner is refused |
| JsonText.UnquoteQuote | field/src/json.rs:369-449 | reading a quoted string gives its content |
| JsonSplit.SplitItems | field/src/json.rs:568-634 | the scanning loop returns the items between top-level commas or the reason to refuse |
| JsonSplit.SplitIff | field/src/json.rs:568-634 | every text splits into given items exactly when it is the brackets around nothing or around balanced non-empty parts joined by single commas, up to white space |
| JsonSplit.SplitJoin | field/src/json.rs:568-634 | splitting joined items gives them back in order |
| JsonSplit.SplitTooDeep | field/src/json.rs:597-602 | one item that nests past the limit makes the split fail |
| JsonValue.ColonIndex | field/src/json.rs:652-676 | finds the first colon outside strings |
| JsonRoundTrip.ScanPrint | field/src/json.rs:584-620 | scanning a printed value comes back to the same depth exactly when it nests within the limit |
| JsonRoundTrip.QuoteIsString | field/src/json.rs:453-481 | every quoted string validates |
| JsonRoundTrip.PrintedIsValue | field/src/json.rs:543-564 | a printed value validates exactly up to one level past the limit |
| JsonRoundTrip.SplitPrintedArray | field/src/json.rs:636-642 | splitting a printed array gives its printed items in order exactly when they nest within the limit |
| JsonRoundTrip.SplitPrintedObject | field/src/json.rs:644-693 | splitting a printed object gives its keys and printed values in order exactly when keys are plain and members nest within the limit |
| ActionTree.Walk.Visit | protocol/src/level.rs:35-129 | the recursive walk updates the statistics as specified |
| ActionTree.TopologyFacts | protocol/src/level.rs:182-223 | length check, walk, guard check and top rules in order |
| ActionTree.VisitJudges | protocol/src/level.rs:35-129 | a walk reports something exactly when the tree is not sound, and a silent walk has counted the leaves |
| ActionTree.TreeOkIffPaths | protocol/src/level.rs:35-129 | the tree condition holds exactly when every path ends in a node that is in place |
| ActionTree.NoFindingsIffWellFormed | protocol/src/level.rs:182-223 | nothing is found exactly when the declarative condition holds over all nodes and paths |
| ActionTree.NotesMarkRefusedTops | protocol/src/level.rs:44-80 | a top action is marked exactly when its own scope, type or flags are refused, and with the first of these that is |
| ActionTree.Precheck | protocol/src/level.rs:226-239 | passes exactly the well-formed action lists, else gives the first finding |
| Interest.StripZeros | mint-core/src/interest.rs:24-32 | the trailing-zero loop ends and preserves the value |
| Interest.ComputeValue | field/src/types/amount.rs:488-517 | addition and subtraction are exact whenever they succeed |
| Interest.CompoundedGrows | mint-core/src/interest.rs:19-23 | compounding is monotone in the number of periods |
| Interest.FloorBounds | mint-core/src/interest.rs:19-23 | floor compounding never exceeds exact compounding and falls short by less than the geometric sum of one unit per period |
| Interest.CalculateInterest | mint-core/src/interest.rs:6-35 | the loops compute the specified interest, error cases included |
| Interest.InterestMeaning | mint-core/src/interest.rs:6-35 | a granted interest is exactly the compounded growth of the base added to the share, which never falls |
| Interest.MorePeriodsEarnMore | mint-core/src/interest.rs:6-35 | more periods never earn less |
| Interest.RefusedOnlyOutOfRange | mint-core/src/interest.rs:33-34 | the subtraction is refused only for amounts out of 64-bit range |
| Interest.ClosingNeverPaysLess | mint-core/src/interest.rs:146-186 | closing pays neither side less than its share and gives the interest to the named side |
| Interest.PeriodAddsThousandth | mint-core/src/interest.rs:19-23 | at the rate of channels a period adds a thousandth, floored |
| Interest.NamedSideIsPaidGrowth | mint-core/src/interest.rs:146-168 | all interest to one side pays that side its share and the floor-compounded growth of both amounts' sum, the other its share |
| Interest.SumRefusedIff | field/src/types/amount.rs:488-517 | an addition is refused exactly when the sum is out of 64 bits at the lower unit |
| Interest.DifferenceRefusedIff | field/src/types/amount.rs:488-517 | a subtraction is refused exactly when it would be negative or the first amount is out of 64 bits at the lower unit |
| Interest.ClosingRefusedIff | mint-core/src/interest.rs:146-186 | a closing is refused exactly before the opening height, or after a period when the amounts or what they earn do not fit 64 bits |
| Interest.BothArePaidCompounded | mint-core/src/interest.rs:170-186 | sides that earn on their own amounts are paid exactly the floor-compounded amount, one period per ten thousand blocks |
| OrderedList.InsertAllSorts | node/src/topology.rs:36-56 | inserting one after another sorts and permutes |
| OrderedList.InsertAllStable | node/src/topology.rs:36-56 | ties keep their order of arrival |
| OrderedList.BoundedHoldsFirst | node/src/topology.rs:36-56 | a bounded list is the head of the unbounded one |
| TxPool.TxGroup.Insert | node/src/txpool.rs:41-71 | replacement, capacity check, placement and overflow as specified |
| TxPool.OfferKeeps | node/src/txpool.rs:41-71 | every insert keeps the group sorted, hash-distinct and within capacity, and a rejected one changes nothing |
| TxPool.RunServesAll | node/src/txpool.rs:41-71 | after any run of inserts no offer whose hash is absent ranked above a retained entry |
| TxPool.PurityRun | node/src/txpool.rs:41-71 | after any run a group by fee purity descends in fee purity, and no offer whose hash is absent had a higher one than a retained entry |
| TxPool.FeeRun | node/src/txpool.rs:41-71 | the same by fee |
| TxPool.FifoRun | node/src/txpool.rs:41-71 | a first-in-first-out group holds the first offers of distinct hash in order of arrival |
| TxPool.PurityAnswers | node/src/txpool.rs:41-56 | a held hash is replaced exactly by a higher fee purity, a new one refused exactly by a full group with none lower |
| TxPool.FeeAnswers | node/src/txpool.rs:41-56 | the same by fee |
| TxPool.RetainedWasOffered | node/src/txpool.rs:41-71 | whatever a group retains was offered |
| Topology.DistanceIsRing | node/src/topology.rs:6-18 | the byte distance is the shorter way around a ring of 256, a metric |
| Topology.CompareTopology | node/src/topology.rs:21-32 | the loop compares distances byte by byte, the first difference deciding |
| Topology.NearerIsOrder | node/src/topology.rs:21-32 | distance orders peers up to ties |
| Topology.NearerIsCloser | node/src/topology.rs:21-32 | one peer is nearer than another exactly when it is closer at the first byte at which their distances differ |
| Topology.InsertOrdered | node/src/topology.rs:36-56 | inserts before the first farther peer and drops the farthest of a full list |
| Topology.HoldsNearest | node/src/topology.rs:36-56 | a bounded list holds the nearest of everything inserted, earliest first among equals |
| Topology.InsertNearestKey | node/src/topology.rs:59-77 | only a key closer than the least one enters, in order |
| PeerTable.OneEachDistinct | node/src/peertable.rs:89-165 | in tables with one entry each, node keys and connection ids are pairwise distinct across both |
| PeerTable.Table.Insert | node/src/peertable.rs:89-165 | replaces the same node, places the peer, rebuilds the id map and publishes |
| PeerTable.InsertConserves | node/src/peertable.rs:89-165 | each peer ends in exactly one of the tables, replaced, or dropped |
| PeerTable.InsertKeeps | node/src/peertable.rs:89-165 | node keys stay distinct across both tables, sizes bounded, lists sorted, id map and snapshot equal to their union |
| PeerTable.PrivateStaysOut | node/src/peertable.rs:142-150 | a peer that is not public leaves the backbone as it was less its node, and is an offshoot or falls off a full list at least as near |
| PeerTable.PublicEnters | node/src/peertable.rs:112-121 | a public peer enters the backbone exactly unless that is full of peers at least as near |
| PeerTable.PushedOutGoes | node/src/peertable.rs:121-141 | a pushed-out peer is an offshoot, or falls off a full list at least as near, if it was inbound, and is dropped if not |
| PeerTable.BackboneIsPublic | node/src/peertable.rs:71-187 | in every run of joins, departures and promotions every backbone member was public when it entered |
| PeerTable.TablesStayValid | node/src/peertable.rs:71-187 | the tables are valid in every state of every run |
| PeerTable.PushedOutIsNew | node/src/peertable.rs:124-131 | a pushed-out peer never meets its own key again, so the duplicate branch is dead |
| PeerTable.Table.Remove | node/src/peertable.rs:71-85 | takes the connection out of the tables, the id map and the snapshot if it is the current one |
| PeerTable.RemoveTakesOne | node/src/peertable.rs:71-85 | removing takes out exactly this connection, and only while it is the current one |
| PeerTable.RemoveKeeps | node/src/peertable.rs:71-85 | removing keeps the tables valid |
| PeerTable.Table.BoostPublic | node/src/peertable.rs:168-187 | promotes the nearest public offshoot while the backbone has room |
| PeerTable.BoostMoves | node/src/peertable.rs:168-187 | promotion moves one public offshoot into the backbone and drops nobody |
| PeerTable.BoostPromotes | node/src/peertable.rs:168-187 | promotion happens exactly when the backbone has room and some offshoot is public, and moves the first such |
| PeerTable.BoostKeeps | node/src/peertable.rs:168-187 | promotion keeps the tables valid |

## Left out

- Block and transaction execution, consensus checks, difficulty and storage budgets: execution is an uninterpreted layer of writes, and consensus answers are parameters.
- Disk backends, files, VM logs, sockets, HTTP and printing: a batch write is one atomic step that may be refused.
- Rebuilding the state database from genesis at boot, and the file of side hashes: the model boots from the persisted root, replays the stored branch, and may then re-attach any stored side blocks.
- Recovery: a consensus that refuses to answer, or that looks in its history above the candidate's parent, is not modelled.
- Engine lifecycle flags, listeners, runtime caches and error severities, beyond a failed root move leaving the state unavailable.
- EngineOps.ChainEngine.PersistOne: runs uninterrupted; in fast sync attaches interleave with it, which the step system covers.
- Downloader: heights within ten thousand of 2^64, where the source saturates, are not modelled; nor are retries, the watchdog and peer selection.
- Pipeline.NeverStuck: assumes that the block source answers each request for a batch.
- JsonRoundTrip: what validates is stated for printed values only; what splits is stated for every text (`JsonSplit.SplitIff`).
- PeerTable: the public and inbound flags of connections are parameters of each call; connection ids are unique, as the connection counter makes them.
- Fork-choice arithmetic, wire formats, SDK signing, codec registries and parameter tables.
