# The TET node's chain state machine, verified

This project models the chain of the TET node: one block is previewed on an in-memory balance map, captured as
an undo record, applied as a write batch with a dirty set, indexed, and may later be unwound and replaced by a
heavier branch. Around that core it models mempool admission, the miner's rounds, the bounded apply queue, the
signature registry, the two capped payers, the length-prefixed signature pre-images, the fee arithmetic, leader
election and the anonymous-membership Merkle tree.

The main results, in one line each:

- a reorganisation that succeeds leaves exactly the replay of the new tip's whole ancestry; one that fails part-way
  leaves the replay of a chain named from the undo rows and the branch, unless an applied block's root mismatched;
- the statement of account: what an accepted block leaves every wallet, and what every direct operation leaves every
  wallet, stake and bond, in numbers; and along a chain no payment pays twice;
- a block from elsewhere is applied or stored exactly when it passes the listed checks, so every record not mined here
  was produced by the leader of its height; and what one node mines its equal accepts, ending in the same state;
- the flags of the block store and the transaction index follow the canonical chain through every reorganisation, as
  long as no chain holds a hash twice;
- undo inverts apply, for any number of stacked blocks, because the captured keys cover every row a block writes;
- a block previewed at one time applies at any later time, with the same balances and root, exactly when it passes
  the checks only the apply makes;
- an admitted mempool of transfers is minable: any part of it, in any order, at any later time, previews;
- over every run, failed steps included: the canonical index is a linked chain ending at the tip and the ledger is its
  replay exactly until a step stops at the root of a block it has already applied; the tip loses weight exactly where
  a reorganisation stops on a lighter chain, and only one that undid the tip and then failed does; the coins in
  circulation or burned stay as many exactly when each unwinding puts back as many as it takes, as every one does until
  such a stop; a run shows that none need afterwards;
- every direct ledger operation keeps supply equal to liquid balances, stakes and bonds;
- each mining round partitions the mempool, a mempool of n transactions drains within 3n quiet rounds whatever
  builds fail, and what a third failure drops had failed alone each time exactly when it had failed alone the first;
- under every interleaving the apply queue's counter is exact, a won reservation is honoured, and jobs finish in order;
- the registry's four indexes always agree with its records, and a file search finds the earliest markings of all;
- per-wallet and global sponsorship caps hold across restarts, and welcome grants pair nullifiers with wallets;
- the pre-image encoding is uniquely decodable through both layers, election depends on the set of ids alone, and a
  membership path exists for the member and for nothing else.

## How it is laid out

| file | what it holds |
|---|---|
| `Basics`, `Text`, `Protocol` | 64-bit saturation, map sums, trimming and lower-casing, transactions and the node's surroundings |
| `Fees`, `Locks`, `Caac` | fee splits and the gross-up loop, vesting locks, producer weights |
| `BlockApply`, `BlockLaws`, `Conservation`, `StalePreview` | preview and apply of one block, their agreement, money across a block, and why its transactions must be new |
| `Amounts`, `Effects`, `LockLaws` | what a block leaves each wallet, which transactions it accepts and what else they write, what is locked |
| `Undo`, `UndoLaws`, `Replay` | capture and restore, undo against apply, replay as the reference |
| `Clocks` | one reading of the clock against one for each transaction |
| `Consensus`, `Reorg`, `ForkChoice` | mining, gossip, backfill, reorganisation; the chain invariant |
| `ChainSteps`, `ReorgOutcomes`, `ChainRuns`, `Coins`, `Pruning` | every outcome of a commit, an unwinding and a reorganisation; runs of steps, failed ones included; when they keep the coins; pruned undo rows |
| `Vetting`, `Agreement`, `Marks` | which blocks from elsewhere are taken and what that makes of every record; mined blocks at an equal node; canonical flags and the transaction index |
| `SupplyOps`, `OpAmounts`, `Ledger` | the direct ledger operations; the `Ledger` class, whose methods are proved against the functions above |
| `Admission`, `Mining`, `FailedAlone`, `ApplyQueue` | mempool admission, the mining round and its third failure, the apply queue's interleavings |
| `ForkExample`, `LostBlock`, `Isolation` | concrete states: forks that reorganise or fail half way, a run that mints, a valid batch whose first transaction fails alone |
| `Sigs`, `ScanLimit`, `Pae`, `Sponsor`, `Sponsored`, `Grants`, `Leader`, `Merkle` | the smaller state machines and encodings |

State is compared after decoding, so an absent counter is zero and encryption disappears. Clocks and random seeds
are parameters. The treasury and burn wallets, hashing, receipt verification, attestation records and the leader
schedule are the fields of `Host`. The state root is a function of the balance map; the theorems are about the maps,
so nothing rests on the root being collision-free. A transaction hash is the node's own canonical string.

Places where the code and its words differ, settled for the code:

- the gross-up function is described as finding the smallest sufficient amount; it finds the largest amount with that
  net, which is also the smallest exactly when a remainder is at least the rate (`Fees.GrossStartIsSmallestIff`), as
  for the welcome grant, but not in general (`Fees.GrossStartNotAlwaysSmallest`);
- a catch-up batch is said always to fit the apply queue. It fits exactly when fewer slots than the capacity are
  queued, in progress or undecided (`ApplyQueue.CatchUpAcceptedIff`). With one offering thread that is always so
  (`ApplyQueue.OneOffererAlwaysFits`), and all three callers offer synchronously from the one swarm loop; the queue
  by itself, with more threads, can refuse one (`ApplyQueue.CatchUpCanBeRefused`);
- the three-failure drop is described as three failures alone; it counts builds that failed in a row, a first failed
  batch included (`Mining.FailuresCountTheStreak`), so a transaction can be dropped after failing alone twice
  (`Mining.DroppedAfterTwoAlone`);
- singling out the first transaction after a failed build is meant to isolate the one at fault, but the first of a valid
  batch may fail alone when a later one pays the reward pool (`Isolation.AloneItFails`); exactly when is
  `Mining.FirstAloneIsValidIff`;
- a transaction's drop is "three failures alone" exactly when the first of the three failed builds was that transaction
  alone (`FailedAlone.DroppedAfterThreeAloneIff`);
- a gossiped block at height 1 may name a parent; once it is committed the block store is no forest of numbered chains
  and the invariant is gone (`ChainRuns.NamedParentBreaksStore`);
- a reorganisation undoes the tip before it applies the branch, and rivals and candidates are stored with their roots
  unchecked. When a root mismatches, the block stays applied without a record: the heavier rival of the smallest fork
  leaves height one and no tip (`ForkExample.WrongRivalLeavesNoTip`). Undoing the block below such a one puts back
  captured values that no longer fit, and mints (`LostBlock.RunMints`); one undo keeps the money exactly when what its
  row puts back is what stands in the captured places (`ReorgOutcomes.UndoConservesIff`);
- a node that stopped so neither mines nor takes gossip for its next height (`ChainRuns.StuckAfterMismatch`);
- undoing a block marks its transactions' index rows as not canonical, even one whose hash a lower canonical block
  holds as well: the index stays right exactly when none of its hashes is below (`Marks.UndoneIndexIff`);
- a file fee looks its payer's lock up as it was spelled, trimmed and not lower-cased, so the founder's cliff does not
  hold back a fee whose payer is spelled in other letter case (`LockLaws.FounderFileFeeIff`);
- "heavier tip wins" is not kept by a reorganisation that fails, but neither does every failed one lose weight: the
  part of the branch that applied may outweigh the old tip (`ForkExample.FailedYetHeavier`);
- pruning is described by a depth below the tip; the depth counts from the greatest height at a prune, so a heavier and
  shorter chain cannot be unwound as deep (`ForkExample.ShorterChainIsShallow`, `Pruning.PrunedRunUnwinds`);
- a search with more than one criterion reads only 500 entries, so it can miss a record that is there
  (`ScanLimit.LastRecordIsMissed`; exactly when it does not: `ScanLimit.ScanIsCompleteIff`,
  `ScanLimit.CodeScanIsCompleteIff`);
- a block's transactions must be new to the chain, because the preview settles again what the apply skips: the
  balances then differ by the burn (`StalePreview.PreviewLosesTheSettledBurn`), and for a single transfer in every case
  but a feeless self-transfer (`StalePreview.SettledTransferPreviewsUnchangedIff`), for a single airdrop unless it
  grants nothing (`StalePreview.SettledAirdropPreviewsUnchangedIff`), and for a file fee always.

`dafny verify dfyconfig.toml` checks the whole project.

## Model

| member | source | states |
|---|---|---|
| Fees.Charge | tet-core/src/fees.rs:181-245 | a charge succeeds exactly on amounts and rates in range, and its four shares always add up to the amount |
| Fees.SharesAre | tet-core/src/fees.rs:181-245 | every share of every charge in numbers: net, pool, treasury and burn for transfers, utility payments, inference and files |
| Fees.NetSteps | tet-core/src/fees.rs:158-165 | sending one micro more delivers the same or one micro more |
| Fees.GrossStartIsExact | tet-core/src/grants.rs:33-43 | the gross-up start nets the target exactly, and any larger amount nets more, at every rate below 10,000 bps |
| Fees.GrossStartIsSmallestIff | tet-core/src/grants.rs:30-43 | the start is also the smallest sufficient amount exactly when the division's remainder is at least the rate |
| Fees.GrossStartNotAlwaysSmallest | tet-core/src/grants.rs:30-32 | a target and rate for which it is not the smallest |
| Fees.WelcomeTransferMicro | tet-core/src/grants.rs:33-43 | the welcome transfer delivers exactly the grant, and it is both the smallest and the largest amount that does |
| Locks.LockedSumShrinks | tet-core/src/ledger.rs:4621-4648 | a wallet's locked sum never grows as time passes |
| LockLaws.LockedSumIs | tet-core/src/ledger.rs:4621-4648 | the locked sum is the amounts of exactly the wallet's vesting rows that unlock later and, exactly for the founder before the cliff, the founder's share, together and capped at 64 bits |
| LockLaws.RowLocksItsWallet | tet-core/src/ledger.rs:4621-4632 | one more vesting row raises its own wallet's sum by its amount while locked, and no other wallet's |
| LockLaws.TermsStay | tet-core/src/ledger.rs:4332-4459 | while there is any supply no operation changes the founder's terms |
| LockLaws.GenesisIsOnTheShare | tet-core/src/ledger.rs:4332-4459 | until the cliff the ledger genesis leaves holds the founder's share and nothing more of the founder's |
| LockLaws.FounderCannotTransfer | tet-core/src/ledger.rs:1429-1463 | on no more than that share, no transfer of the founder previews and no new one applies, whatever its size, until the cliff |
| LockLaws.FounderCannotStake | tet-core/src/ledger.rs:2782-2974 | nor does any stake or bond of the founder |
| LockLaws.FounderCannotSend | tet-core/src/ledger.rs:6235-6545 | nor any transfer outside a block |
| LockLaws.FounderCannotPayFileFee | tet-core/src/ledger.rs:1550-1580 | nor any file fee spelled as the founder is |
| LockLaws.FounderFileFeeIff | tet-core/src/ledger.rs:1550-1580 | a file fee of the founder in any spelling is accepted exactly when it is spelled otherwise and that spelling has no rows that lock it |
| BlockLaws.PreviewEqualsApply | tet-core/src/ledger.rs:1402-1517 | a fresh block previewed at t1 never fails on funds at any later t2, applies exactly when it passes the apply's extra checks, and stores the previewed balances |
| BlockLaws.ApplyAcceptsIff | tet-core/src/ledger.rs:1649-1942 | at one instant the apply accepts exactly the fresh blocks that preview and pass the extra checks |
| BlockLaws.StoredBalancesAreTheMap | tet-core/src/ledger.rs:1905-1942 | the dirty set is complete: what is stored after a block is the in-memory map its root was computed from |
| Amounts.BlockPays | tet-core/src/ledger.rs:1649-1942 | after an accepted block each wallet has what it had, plus the statement of account of the transactions and the reward, in numbers, settled ones paying nothing |
| Amounts.PreviewPays | tet-core/src/ledger.rs:1402-1517 | after a previewed one the same statement with nothing settled |
| Amounts.BlockCounts | tet-core/src/ledger.rs:1905-1942 | the height and the airdrop count an accepted block stores |
| Amounts.AppliedTxPays | tet-core/src/ledger.rs:1685-1898 | what one transaction pays each wallet, several roles of one wallet included |
| Amounts.TransferOfThree | tet-core/src/ledger.rs:1689-1748 | a new transfer between three wallets: the sender less the amount, the recipient plus the rest after the fee, the pool plus half the fee rounded down, nobody else anything |
| Amounts.RewardPaidIff | tet-core/src/ledger.rs:1944-1971 | a reward is paid exactly to a named wallet that is not the system's, from a pool that can pay it |
| Effects.AppliesIff | tet-core/src/ledger.rs:1649-1942 | the apply accepts a transaction exactly when signer, fields, ranges, locks and rows are as listed for its kind |
| Effects.AppliedTxWrites | tet-core/src/ledger.rs:1685-1898 | the markers, task and worker rows each kind writes, and that nothing else is written |
| Effects.PaysOnce | tet-core/src/ledger.rs:1685-1898 | along a chain that replays, the hash of a transfer, file fee or registration pays nobody anything in any later block |
| BlockLaws.BlockUnderLooserLocks | tet-core/src/ledger.rs:1649-1942 | a block that applied under some locks applies to the same result once locks have run out |
| Clocks.OneReadingSuffices | tet-core/src/ledger.rs:1649-1942 | with the clock read for each transaction, anywhere between two times, what applies applies the same at the later time alone and what fails fails at the earlier alone |
| Clocks.OneReadingPreviews | tet-core/src/ledger.rs:1402-1517 | the same of a preview |
| Clocks.TimedPreviewEqualsApply | tet-core/src/ledger.rs:1402-1517 | the law of preview and apply when each transaction's apply reads the clock no earlier than its preview did |
| StalePreview.SettledTransferPreviewsUnchangedIff | tet-core/src/ledger.rs:1429-1463 | a settled transfer is skipped by the apply; its preview leaves the balances unchanged exactly when it is a self-transfer too small to carry a fee |
| StalePreview.SettledAirdropPreviewsUnchangedIff | tet-core/src/ledger.rs:1476-1487 | a settled airdrop is skipped by the apply; its preview leaves the balances unchanged exactly when the count is at the cap or the pool is below the grant |
| StalePreview.SettledFileFeeNeverPreviewsUnchanged | tet-core/src/ledger.rs:1488-1503 | a settled file fee is skipped by the apply; its preview always changes the balances |
| StalePreview.PreviewLosesTheSettledBurn | tet-core/src/consensus.rs:1368-1371 | when a block both previews and applies, the stored total exceeds the previewed one by exactly the burn of its already settled transactions |
| StalePreview.StalePreviewDiffers | tet-core/src/consensus.rs:1368-1371 | so a settled file fee, or settled transfer with a fee, in such a block makes the stored balances differ from the previewed ones |
| Conservation.BlockConserves | tet-core/src/ledger.rs:1649-1942 | across any accepted block circulation plus burned is constant, supply minus circulation is constant, the fee total grows by exactly the fees, and nothing saturates |
| Conservation.TransferConserves | tet-core/src/ledger.rs:1689-1748 | a transfer moves and burns coins exactly, self-transfers and the pool as a party included |
| Conservation.FileFeeConserves | tet-core/src/ledger.rs:1550-1608 | a file fee moves and burns coins exactly, storage folded into the treasury included |
| Conservation.BlockKeepsSupplyGap | tet-core/src/ledger.rs:1649-1942 | supply stays in step with the balances even when the fee and burn counters are saturated |
| UndoLaws.BlockKeysCover | tet-core/src/ledger.rs:647-766 | the captured keys include every key of every transaction, the reward and the height |
| UndoLaws.TxFrame | tet-core/src/ledger.rs:1685-1898 | a transaction of any of the six kinds changes nothing outside its captured keys |
| UndoLaws.CoreRestored | tet-core/src/ledger.rs:784-796 | restoring the captured rows over the applied ledger gives back the ledger before the block |
| Replay.CommitExtends | tet-core/src/consensus.rs:1107-1166 | committing a block extends the replay by that block, adds its record, and leaves an undo row that restores the state before it |
| Replay.UndoInvertsCommit | tet-core/src/ledger.rs:784-796 | undo after apply and record gives back every row but the block and undo stores |
| Replay.UndoAllInvertsAll | tet-core/src/ledger.rs:784-796 | undoing any number of stacked blocks, newest first, gives back the state before all of them |
| Replay.ReplayConserves | tet-core/src/ledger.rs:1649-1942 | any replay from genesis conserves money and keeps supply within the cap |
| ReorgLaws.InvShape | tet-core/src/ledger.rs:894-921 | under the chain invariant the canonical index is numbered from one and the tip is its top entry with that record's weight and root |
| ReorgLaws.UnwindReplays | tet-core/src/consensus.rs:1183-1201 | unwinding to an ancestor leaves exactly the replay up to that ancestor |
| ReorgLaws.BranchContinues | tet-core/src/consensus.rs:1203-1206 | applying the branch on top leaves the replay of the joined chain, with right undo rows for every new block |
| ForkChoiceLaws.ClimbFindsDeepest | tet-core/src/consensus.rs:1066-1083 | the climb finds the deepest block on both ancestries, or genesis exactly when there is none |
| ForkChoiceLaws.PlanExists | tet-core/src/consensus.rs:1066-1105 | the common ancestor is a canonical height, and the branch above it is linked, numbered upwards and disjoint from the canonical chain |
| ForkChoiceLaws.ReorgEqualsReplay | tet-core/src/consensus.rs:1168-1207 | from a replayed state, a reorganisation that succeeds leaves the replay of the new tip's whole ancestry, with a strictly heavier tip |
| ForkExample.HeavierRivalWins | tet-core/src/consensus.rs:1168-1207 | the smallest fork: the invariant holds in it, and the heavier block at height 1 becomes the tip |
| ForkExample.WrongRivalLeavesNoTip | tet-core/src/consensus.rs:1142-1147 | with a wrong root on the heavier block the reorganisation fails with the old tip undone and the new block applied: height one, no tip, no invariant |
| ForkExample.FailedYetHeavier | tet-core/src/consensus.rs:1203-1206 | a reorganisation that undoes the tip, fails at the second block of its branch, and leaves a heavier tip |
| ChainSteps.CommitFromInv | tet-core/src/consensus.rs:1107-1166 | a block committed on top keeps the invariant exactly when its root does not mismatch; a commit that fails before that leaves the replayed state and every record |
| ReorgOutcomes.UnwoundFromInv | tet-core/src/consensus.rs:1183-1201 | the unwinding keeps the invariant however far it gets, and gets to the common ancestor exactly when no undo row above it is missing |
| ReorgOutcomes.ReorgFromInv | tet-core/src/consensus.rs:1168-1207 | however a reorganisation ends: the invariant is kept exactly when no applied block's root mismatched, the chain is then the part of the old one with undo rows missing or, past the ancestor, the part of the branch that applied, and the tip weighs what that chain's top does |
| ReorgOutcomes.ReorgKeepsFlags | tet-core/src/consensus.rs:1168-1207 | from any well-formed store, however it ends, a reorganisation changes canonical flags and nothing else in the block store |
| ReorgOutcomes.ReorgWinsIff | tet-core/src/consensus.rs:1168-1207 | from a replayed state a reorganisation wins exactly when the block is stored and heavier, its branch is stored, every undo row needed is there and every branch block applies; and declines exactly when there is no tip or the block is no heavier |
| Marks.RunMarks | tet-core/src/consensus.rs:1107-1206 | along every run without a root mismatch in which no chain holds a hash twice: a record is flagged exactly when it is its height's canonical block, each canonical transaction is indexed at its height and position with its envelope, and no other hash is indexed as canonical |
| Marks.WonReorgMarks | tet-core/src/consensus.rs:1183-1206 | after a reorganisation that wins, that holds of the new chain, every block it left is flagged off, and every hash only such blocks hold is indexed as not canonical |
| Marks.UndoneIndexIff | tet-core/src/consensus.rs:1183-1201 | undoing the top block leaves the index right exactly when none of its hashes is in a block below |
| ChainSteps.ReweighedIsRight | tet-core/src/consensus.rs:1209-1237 | after a backfilled branch is weighed again each block weighs what its producer's record says and its parent's stored weight with that |
| ReorgOutcomes.ReorgConserves | tet-core/src/consensus.rs:1203-1206 | past its unwinding a reorganisation conserves money, from any state with room and however it ends |
| ReorgOutcomes.UndoConservesIff | tet-core/src/ledger.rs:784-796 | from any state, undoing one block keeps circulation plus burned exactly when what its row puts back is what stands in the captured places |
| ChainRuns.StepKeepsInvIff | tet-core/src/consensus.rs:1744-2006 | any step, failed ones included, keeps the invariant exactly when it does not stop at the root of a block it has applied |
| ChainRuns.StepProgress | tet-core/src/consensus.rs:1744-2006 | a step that does not fail with blocks undone or applied keeps the invariant, and changes the replayed state only for a heavier tip |
| ChainRuns.TipDropsIff | tet-core/src/consensus.rs:1168-1207 | the tip loses weight exactly when a reorganisation stops on a chain whose top weighs less, and only one that undid the tip and then failed does |
| ChainRuns.MinedStep | tet-core/src/consensus.rs:1571-1735 | mining never stops at a mismatch: it extends the chain with a heavier tip or leaves the replayed state alone |
| ChainRuns.StuckAfterMismatch | tet-core/src/consensus.rs:832-857 | after a step that stops at a root mismatch the node mines nothing and takes no gossip for its next height |
| Vetting.CheckedIff | tet-core/src/consensus.rs:1780-1875 | the checks pass exactly on a block whose producer leads the height, whose id is the hash of its parts, whose hashes are distinct, whose inference work has an attested producer, whose court proofs claim different open tasks and whose reward is earned |
| Vetting.ZkClaimsIff | tet-core/src/consensus.rs:576-645 | the task-claim check passes exactly when no proof is invalid and court proofs claim different open tasks |
| Vetting.RewardIff | tet-core/src/consensus.rs:491-541 | the reward of a block is the base, the court's price of all the work proved, and their capped sum, exactly when every transaction is one that may earn |
| Vetting.NextRowIff | tet-core/src/consensus.rs:1744-1937 | gossip for the next height has a row exactly when it fits on the chain and is vetted, and the row field by field |
| Vetting.ExtendsIff | tet-core/src/consensus.rs:1938-2006 | new to the chain, it is applied exactly when moreover it previews to its root and passes what only the apply checks |
| Vetting.RivalStoredIff | tet-core/src/consensus.rs:1876-1936 | a rival at the local height is stored exactly when vetted, with another block in the summary |
| Vetting.RivalAnswerIs | tet-core/src/consensus.rs:1876-1936 | what the sender of a stored rival is told: the chain moved to it, or it lost to the larger id or to the smaller |
| Vetting.CandidateStoredIff | tet-core/src/consensus.rs:940-1049 | a backfilled candidate is stored exactly when vetted against the parent it names |
| Vetting.ChangesAreVetted | tet-core/src/consensus.rs:940-2006 | whatever a gossiped block or a candidate changes, it was vetted |
| Vetting.RecordsAreVouched | tet-core/src/consensus.rs:940-2006 | over every run, failed steps included, each record not mined here was produced by the leader of its height, with its id, hashes and reward as the checks ask |
| Agreement.MinedIsAccepted | tet-core/src/consensus.rs:1605-2006 | an honestly mined block is accepted by a node in the same state at any later time, and leaves it in the miner's state |
| ChainRuns.StepKeepsStore | tet-core/src/consensus.rs:907-938 | from any state every step keeps the block store well formed |
| ChainRuns.StepConserves | tet-core/src/consensus.rs:1107-1207 | past its unwinding every step conserves money, from any state with room and however it ends |
| ChainRuns.RunKeepsInvIff | tet-core/src/consensus.rs:832-1237 | along a run every state so far is the replay of its linked canonical chain exactly when no step so far stopped at a root mismatch |
| ChainRuns.RunGainsWeight | tet-core/src/consensus.rs:1168-1178 | between steps that stop halfway, the tip's weight rises at every change of the replayed state |
| ChainRuns.NoReturnToATip | tet-core/src/consensus.rs:1168-1178 | between steps that stop halfway, no run comes back to a tip it has left |
| ChainRuns.RunConserves | tet-core/src/consensus.rs:1107-1207 | circulation plus burned and supply minus circulation are constant over every run, failed steps included, in which no reorganisation undoes its tip after a step stopped at a mismatch |
| Coins.CoinsAreKeptIff | tet-core/src/consensus.rs:1107-1207 | over any sequence of steps, from any state with room and failed steps included, circulation plus burned stays the same exactly when each unwinding puts back as many coins as it takes |
| LostBlock.RunMints | tet-core/src/consensus.rs:1183-1206 | a run of five steps in which one does: ten coins in circulation become fifteen, and the supply is exceeded |
| ChainRuns.PreviewedBlockCommits | tet-core/src/consensus.rs:1938-1977 | the root-mismatch branch after an apply is never taken for a fresh block whose root was previewed |
| Pruning.UnwindSucceedsIff | tet-core/src/consensus.rs:1183-1201 | unwinding to a height succeeds exactly when every canonical block above it has its undo row |
| Pruning.PruneKeepsExactly | tet-core/src/ledger.rs:812-843 | a canonical block keeps its undo row exactly when it sits no more than the depth below the height |
| Pruning.PrunedRunUnwinds | tet-core/src/ledger.rs:812-843 | over every run without a mismatch, the chain unwinds to any height not more than one below the greatest height at a prune less its depth |
| ForkExample.ShorterChainIsShallow | tet-core/src/ledger.rs:812-843 | pruned to depth one, then reorganised to a heavier chain that is shorter, the chain no longer unwinds by two |
| ChainRuns.NamedParentBreaksStore | tet-core/src/consensus.rs:859-877 | a gossiped height-1 block that names a parent commits, and with it the block store is no longer well formed and the invariant is gone |
| SupplyOps.SupplyAlwaysAccounted | tet-core/src/ledger.rs:2782-3056 | after any operations, in any order, supply equals balances, stakes, worker bonds and challenger bonds together |
| SupplyOps.DoAccounts | tet-core/src/ledger.rs:6367-6545 | each operation keeps that equation on its own |
| OpAmounts.GenesisIs | tet-core/src/ledger.rs:4332-4459 | when genesis is accepted, and the three shares it leaves, with the founder's terms |
| OpAmounts.StakeIs | tet-core/src/ledger.rs:2782-2974 | when a stake or bond is accepted, and the amount moved, with the nonce |
| OpAmounts.UnstakeIs | tet-core/src/ledger.rs:2976-3056 | when an unbond is accepted, and the amount moved back |
| OpAmounts.LockCourtIs | tet-core/src/ledger.rs:3271-3322 | when a challenger's bond is locked, and the amount moved |
| OpAmounts.SettleCourtIs | tet-core/src/ledger.rs:3324-3379 | the bond goes back or to the ecosystem wallet by the verdict, and the case closes |
| OpAmounts.SlashIs | tet-core/src/ledger.rs:3381-3511 | when a bond or stake is slashed, and where it goes |
| OpAmounts.MintIs | tet-core/src/ledger.rs:5323-5497 | when a mint is accepted, and the coins it adds |
| OpAmounts.WorkerRewardIs | tet-core/src/ledger.rs:5498-5656 | when a worker is rewarded, the uplifted amount out of the pool, and the vesting row |
| OpAmounts.UtilityIs | tet-core/src/ledger.rs:5686-5828 | when a utility payment is accepted, and every share of it |
| OpAmounts.InferenceIs | tet-core/src/ledger.rs:5853-5984 | when an inference charge is accepted, and its two halves |
| OpAmounts.NoFeeIs | tet-core/src/ledger.rs:6235-6333 | when an untaxed transfer is accepted, the amount moved and the pre-sale lock it may start |
| OpAmounts.TaxedIs | tet-core/src/ledger.rs:6367-6545 | when a taxed transfer is accepted, what sender, recipient and pool are left, the fee and the burn, nonce and pre-sale lock |
| SupplyOps.GenesisIsSound | tet-core/src/ledger.rs:4332-4459 | genesis from an empty store puts the whole supply in circulation, with room for every operation to come |
| LedgerStore.GenesisChainConserves | tet-core/src/ledger.rs:4332-4459 | from that genesis, along every such run of the chain, failed steps included, supply is what circulates, and with what is burned it is the cap |
| SupplyOps.RewardAccounts | tet-core/src/ledger.rs:5323-5656 | minting and worker payouts keep the equation |
| SupplyOps.SlashAccounts | tet-core/src/ledger.rs:3381-3511 | slashing a bond or a stake keeps the equation |
| LedgerStore.WalkIsAncestry | tet-core/src/consensus.rs:1051-1064 | on a well-formed store the walk's set is exactly the ancestry |
| LedgerStore.Ledger.AncestorIdsFromTip | tet-core/src/consensus.rs:1051-1064 | the visited-set walk terminates on any store, cyclic ones included, and collects exactly the blocks parents reach |
| LedgerStore.Ledger.FindCommonAncestor | tet-core/src/consensus.rs:1066-1083 | the loop finds the common ancestor of the specification |
| LedgerStore.Ledger.BranchFromAncestorToTip | tet-core/src/consensus.rs:1085-1105 | the loop collects the branch, lowest block first, or fails on an unknown block |
| LedgerStore.Ledger.LockedBalanceMicro | tet-core/src/ledger.rs:4621-4648 | the loop over vesting rows and the founder's cliff computes the locked sum, which is those rows and that share |
| LedgerStore.Ledger.PreviewRoot | tet-core/src/ledger.rs:1402-1517 | the preview loop gives the root of the previewed balances and writes nothing |
| LedgerStore.Ledger.ApplyConsensusBlockBatch | tet-core/src/ledger.rs:1649-1942 | the apply either changes nothing or leaves the applied ledger, and returns the root of what it stored |
| LedgerStore.Ledger.PrepareBlockUndo | tet-core/src/ledger.rs:647-766 | the capture loop yields the undo record of the block's keys, transactions and hashes paired as far as both go |
| LedgerStore.Ledger.ApplyBlockUndo | tet-core/src/ledger.rs:784-796 | all eight trees go back to the captured rows, or nothing changes when there is no record |
| LedgerStore.Ledger.PruneHistoryAfterBlock | tet-core/src/ledger.rs:812-843 | the sweep leaves exactly the rows of the kept heights and counts what it removed |
| LedgerStore.Ledger.ApplyBlockRecordForward | tet-core/src/consensus.rs:1107-1166 | checks, undo row, apply, root check and records, with what a failure leaves behind |
| LedgerStore.Ledger.UnwindTo | tet-core/src/consensus.rs:1183-1201 | the unwinding loop follows the specification block by block |
| LedgerStore.Ledger.ReorgToBranch | tet-core/src/consensus.rs:1168-1207 | the in-place reorganisation is the specified one, failures part-way included |
| LedgerStore.Ledger.TryReorgBackfilledBranch | tet-core/src/consensus.rs:1209-1237 | the branch is re-weighed in the store, lowest first, and then tried |
| LedgerStore.Ledger.StakeWorkerBondMicro | tet-core/src/ledger.rs:2890-2974 | the whole new state of a bond, or none of it, with the supply equation kept |
| LedgerStore.Ledger.UnstakeWorkerBondMicro | tet-core/src/ledger.rs:2976-3056 | the whole new state of an unbond, or none of it, with the supply equation kept |
| LedgerStore.Ledger.SettleTransferInternal | tet-core/src/ledger.rs:6367-6545 | the whole new state of a taxed transfer, or none of it, with the supply equation kept |
| LedgerStore.Ledger.SettleAiUtilityPayment | tet-core/src/ledger.rs:5686-5828 | the whole new state of a utility payment, or none of it, with the supply equation kept |
| LedgerStore.Ledger.ApplyGenesisAllocation | tet-core/src/ledger.rs:4332-4459 | the genesis shares are written once, only for the founder a mainnet node insists on and only on an empty supply; a missing treasury address leaves the cleared trees |
| Admission.WaitingIsCappedSum | tet-core/src/consensus.rs:1499-1505 | the fold over the mempool is the sender's waiting total, capped at 64 bits |
| Admission.AdmittedIff | tet-core/src/consensus.rs:1467-1511 | an offered transfer is admitted exactly when signed, in range and, with what its sender has waiting and locked, within its balance |
| Admission.RunKeepsMinable | tet-core/src/consensus.rs:1467-1511 | over any history of offers and evictions, every wallet's waiting transfers fit its spendable balance |
| Admission.AdmissionMakesMinable | tet-core/src/consensus.rs:1482-1489 | any part of an admitted transfers-only mempool, in any order, at any later time, previews as a block |
| Mining.SelectionIsValid | tet-core/src/consensus.rs:1533-1554 | selection deals its input in order into block, later and refused; the block is empty or valid and each refused transaction breaks a kept prefix |
| Mining.SelectionIsMaximal | tet-core/src/consensus.rs:1533-1554 | a valid whole is taken whole; otherwise only what lies past the first 256 is put off |
| Mining.SiftKeepsOneOfEach | tet-core/src/consensus.rs:1372-1387 | what stays is unsettled and unique by hash; every transaction is settled or represented |
| Mining.PlanPartitions | tet-core/src/consensus.rs:1388-1398 | every transaction of the mempool is stale, refused, in the block or waiting, with order kept |
| Mining.FirstAloneIsValidIff | tet-core/src/consensus.rs:1391-1398 | the first of a valid batch makes a valid block alone exactly when the balances after it can pay that block's reward |
| Isolation.AloneItFails | tet-core/src/consensus.rs:1391-1398 | a valid batch whose first transaction makes no valid block alone |
| Mining.QuietRound | tet-core/src/consensus.rs:1399-1430 | with nothing arriving, the new mempool is the whole plan after a retriable failure and otherwise what was put off, in order |
| Mining.BarredRound | tet-core/src/consensus.rs:1340-1371 | a producer that may not mine what is waiting takes nothing out and counts nothing |
| Mining.FailedBuildLosesNoBatch | tet-core/src/consensus.rs:1557-1569 | whatever arrives meanwhile, a retriable transaction is still waiting or a copy of it is |
| Mining.FrontLosesNothing | tet-core/src/consensus.rs:1557-1569 | a requeued transaction is at the front or its hash was already waiting |
| Mining.MempoolDrains | tet-core/src/consensus.rs:1340-1430 | n transactions are gone within 3n quiet rounds, whatever builds fail and however the ledger changes |
| Mining.FailuresCountTheStreak | tet-core/src/consensus.rs:1406-1430 | the counter is the number of builds that failed in a row, modulo three, over every run |
| FailedAlone.DroppedAfterThreeAloneIff | tet-core/src/consensus.rs:1388-1454 | over any three failed builds in a row, the transaction the last one drops had failed alone in all three exactly when it had in the first |
| Mining.DroppedAfterTwoAlone | tet-core/src/consensus.rs:1441-1454 | two transactions that are a valid block together: after their batch fails and the first fails alone twice, it is dropped |
| Isolation.DroppedHere | tet-core/src/consensus.rs:1441-1454 | that run on a concrete ledger, where the first cannot build alone |
| Mining.DropsOnlyAtTheThirdFailure | tet-core/src/consensus.rs:1441-1454 | a build that wrote nothing drops only a sole transaction, exactly at the third failure in a row |
| Mining.DropStale | tet-core/src/consensus.rs:1372-1387 | the loop keeps the unsettled first copies, or gives up the drained mempool when one cannot be hashed |
| Mining.SelectBlockTxs | tet-core/src/consensus.rs:1533-1554 | the loop makes the specified selection |
| Mining.Miner.RequeueTxsFront | tet-core/src/consensus.rs:1557-1569 | the mempool becomes the requeued transactions followed by what it held |
| Mining.Miner.MinePendingBlockAs | tet-core/src/consensus.rs:1340-1430 | one round changes mempool and failure counter as specified, in every outcome |
| ApplyQueue.DepthCounts | tet-core/src/apply_worker.rs:95-105 | under every interleaving the counter is what is queued, in progress, undecided or stranded, and returns to zero at rest |
| ApplyQueue.ReservationIsHonoured | tet-core/src/apply_worker.rs:95-105 | a won reservation never meets a full channel while the worker lives |
| ApplyQueue.DroppablesStayBelow | tet-core/src/apply_worker.rs:107-115 | droppable jobs never hold more than the capacity less two slots |
| ApplyQueue.FinishesInOrder | tet-core/src/apply_worker.rs:171-188 | jobs finish in the order they were accepted |
| ApplyQueue.OfferAcceptedIff | tet-core/src/apply_worker.rs:95-105 | an offer is accepted exactly when fewer slots than its limit are queued, in progress or undecided |
| ApplyQueue.CatchUpAcceptedIff | tet-core/src/apply_worker.rs:117-120 | a catch-up batch is accepted exactly when fewer slots than the capacity are, whatever they hold |
| ApplyQueue.CatchUpFits | tet-core/src/apply_worker.rs:117-120 | so a lone catch-up batch is accepted whenever at most one failed offer still holds a slot |
| ApplyQueue.OneOffererAlwaysFits | tet-core/src/apply_worker.rs:14-17 | and always, when one thread makes every offer, as the node's one loop does |
| ApplyQueue.CatchUpCanBeRefused | tet-core/src/apply_worker.rs:95-120 | with several offering threads, a reachable state in which two failed offers turn it away |
| Sigs.RunKeepsInv | tet-core/src/sigs.rs:273-319 | after any run the four indexes agree with the records, the byte counter is the sum of publish-time costs within the cap, and no signer exceeds 1,000 |
| Sigs.TakenIff | tet-core/src/sigs.rs:273-319 | after any run a publish is taken, as exactly this record, exactly when it and its consent verify, its hash is new, its signer has fewer than 1,000 records and its cost fits |
| Sigs.AnchorIsTheLowestOffered | tet-core/src/sigs.rs:321-334 | a record's anchor is the first offer at the lowest height, over every run |
| Sigs.SearchIsSound | tet-core/src/sigs.rs:343-374 | every search of any store returns stored records of the file, signer and dates asked for, in time order, at most fifty |
| Sigs.SearchMeetsEverything | tet-core/src/sigs.rs:343-374 | after any run the records returned meet every criterion, the proof code included |
| Sigs.CodeSearchIsComplete | tet-core/src/sigs.rs:343-374 | a search by proof code, with whatever else, finds the first fifty of all records that meet it while at most 500 share the code |
| Sigs.SearchIsComplete | tet-core/src/sigs.rs:343-374 | a search by file, by signer or by dates finds the first fifty of all records that match, however many there are |
| Sigs.FileSearchIsComplete | tet-core/src/sigs.rs:343-374 | with further criteria that still holds when the file has at most 500 entries |
| ScanLimit.ScanIsCompleteIff | tet-core/src/sigs.rs:343-374 | with further criteria a search by file or signer finds the first fifty of all that match exactly when it finds fifty or nothing past the first 500 entries matches |
| ScanLimit.CodeScanIsCompleteIff | tet-core/src/sigs.rs:343-374 | a search by proof code does exactly when every match past the first 500 under the code is published after the fifty it finds |
| ScanLimit.LastRecordIsMissed | tet-core/src/sigs.rs:343-374 | a run of 501 publishes whose last record neither search finds |
| Sigs.SigStore.Publish | tet-core/src/sigs.rs:273-319 | the whole new state and answer of a publish, keeping the invariant |
| Sigs.SigStore.SetAnchor | tet-core/src/sigs.rs:321-334 | the whole new state and answer of an anchoring, keeping the invariant |
| Sigs.SigStore.Search | tet-core/src/sigs.rs:343-374 | the loading loop, sort and cut give the specified answer |
| Pae.EncodingReadsBack | tet-core/src/agent.rs:121-130 | any list of byte strings is read back from its encoding, decimal lengths included |
| Pae.OnlyEncodingsParse | tet-core/src/agent.rs:121-130 | and only encodings are read |
| Pae.EncodeFields | tet-core/src/agent.rs:121-130 | the buffer loop builds the encoding |
| Pae.LayoutOfTwo | tet-core/src/agent.rs:117-143 | the layout of two fields, byte for byte |
| Pae.PayloadMessageBindsAll | tet-core/src/agent.rs:147-159 | payload messages are equal exactly when chain, genesis, trimmed type and payload are |
| Pae.ManifestMessageBindsAll | tet-core/src/agent.rs:194-225 | manifest messages are equal exactly when the network, the normalised fields and the capability lists are, through both layers |
| Pae.ManifestsAreNotOtherPayloads | tet-core/src/agent.rs:54-55 | no manifest message is a payload message of another type |
| Sponsor.CapsHoldForever | tet-core/src/demo_sponsor.rs:256-322 | over every run with restarts no file is sponsored twice, wallet and global daily caps hold, and a client's cap holds between restarts |
| Sponsored.GrantedExactlyWhen | tet-core/src/demo_sponsor.rs:256-311 | over every run with restarts a request is granted exactly when it is well made, its file was never paid for, wallet, global and client counts are below their caps and the sponsor keeps its floor |
| Sponsor.OpeningKeepsInv | tet-core/src/demo_sponsor.rs:215-235 | renewing the salt and dropping other days' counters loses no count from today on |
| Sponsor.DemoSponsor.PruneBefore | tet-core/src/demo_sponsor.rs:228-235 | the sweep leaves exactly today's counters |
| Sponsor.DemoSponsor.Decide | tet-core/src/demo_sponsor.rs:256-311 | the checks in order, and the salt and counters they leave |
| Sponsor.DemoSponsor.Commit | tet-core/src/demo_sponsor.rs:313-322 | the file is marked and three counters bumped |
| Grants.GrantsPairOff | tet-core/src/grants.rs:262-271 | over every run nullifiers and wallets pair off, the counter is their number, at most 1,000, and the payer never pays itself |
| Grants.PaidExactlyWhen | tet-core/src/grants.rs:275-317 | a well-formed claim inside the clock's tolerance is paid exactly when its nullifier and wallet are new, the cap has room and the floor can be kept |
| Grants.GrantsAreKept | tet-core/src/grants.rs:262-271 | no continuation of a run changes who was paid under a nullifier, nor which nullifier a wallet was paid for |
| Leader.ValidatorsAreTheSet | tet-core/src/consensus.rs:111-122 | the configured list becomes the strictly ascending list of its normalised non-blank ids |
| Leader.LeaderLeadsTheSet | tet-core/src/consensus.rs:169-181 | in both modes the leader is the one validator that leads all others, and exists exactly when some id is not blank |
| Leader.ValueIs | tet-core/src/consensus.rs:284-289 | what is compared: the score, or the whole part of its leading 64 bits over the weight |
| Leader.LeaderIsOfTheSet | tet-core/src/consensus.rs:246-264 | the leader depends on the set of ids alone |
| Leader.PaddingAndCaseKeepTheLeader | tet-core/src/consensus.rs:95-99 | re-casing or padding an id never changes the leader |
| Leader.MoreWeightKeepsTheLead | tet-core/src/consensus.rs:284-289 | raising a validator's weight never loses it a height it had won |
| Leader.LeaderForHeight | tet-core/src/consensus.rs:246-264 | the scan finds the first least validator |
| Caac.FasterNeverWeighsLess | tet-core/src/consensus.rs:270-282 | a faster answer never weighs less, other things equal |
| Caac.WeightIs | tet-core/src/consensus.rs:270-282 | the weight in numbers: 100, 25 or 10 by role, plus the latency score between 1 and 1,000, halved for a slow server |
| Merkle.RootFromPathLoop | nexus-protocol/src/lib.rs:149-167 | the bit-by-bit loop computes the root of a path |
| Merkle.PathBinds | nexus-protocol/src/lib.rs:149-167 | under an injective parent hash, one index and length, a root fixes the leaf and every sibling |
| Merkle.RowsAreTheTree | tet-core/src/tmail/anon.rs:167-191 | the sparse rows and empty-subtree digests are the complete tree |
| Merkle.PathsReachTheRoot | tet-core/src/tmail/anon.rs:202-214 | the path of each of the first 2^depth members recomputes the root, however few there are |
| Merkle.PathReachesTheRootIff | tet-core/src/tmail/anon.rs:202-214 | with distinct members, a member's own path recomputes the root exactly when it is one of the first 2^depth |
| Merkle.OnlyLowBitsAreRead | nexus-protocol/src/lib.rs:149-167 | a path reads one bit of the index per sibling and none above |
| Merkle.OnlyTheMemberHasAPath | nexus-protocol/src/lib.rs:149-167 | at every index a full-depth path reaches the root exactly when it is the path, and its leaf the member, of the slot the index's low bits name |
| Merkle.NodesAgreeIff | tet-core/src/tmail/anon.rs:162-191 | two nodes are equal exactly when the leaves below them are |
| Merkle.RootBindsTheRegistry | tet-core/src/tmail/anon.rs:193-200 | two registries have one root exactly when they agree at every one of the first 2^depth indices |
| Merkle.Build | tet-core/src/tmail/anon.rs:162-191 | the level loops build every row and empty digest |
| Merkle.Path | tet-core/src/tmail/anon.rs:202-214 | the sibling loop gives the member's path, or nothing past the last member |

## Left out

- Storage errors, flushing, encryption, snapshots, migrations and malformed stored rows; the mining round keeps only their outcome that something may have been written.
- Stored candidates are not checked against their parents' heights in the code; runs assume each sits one above its parent, names none at height 1, and never overwrites a canonical row (`ChainSteps.Placeable`).
- Timestamps in records and undo rows, audit events, the rolling sweeps of audit history, and gossip after a block.
- Mining, gossip and backfill checks around the apply are functions on values, not methods; the apply, undo, unwinding and reorganisation they lead to are methods on the `Ledger` class.
- ChainRuns.RunConserves: says nothing once a reorganisation has undone its tip after a mismatch; exactly when the coins are kept then is `Coins.CoinsAreKeptIff`, and of the supply counter nothing is said.
- LedgerStore.GenesisChainConserves: likewise.
- ReorgLaws.Inv: says nothing of the transaction index and the canonical flags, which `Marks.Marked` covers.
- Marks.RunMarks: for runs in which no chain holds a hash twice; with one held twice, exactly when an undo then leaves the index right is `Marks.UndoneIndexIff`.
- Trimming and lower-casing are ASCII; other white space is not modelled. Block ids and transaction hashes are canonical, non-blank strings, so their trimming on lookup is not modelled.
- Genesis guardian grants, faucets, fiat top-ups, treasury withdrawal and remote-event transfers; presale windows and attestation are parameters of the transfers that check them.
- Undo restores raw old values, so the direct operations and undo are two separate step relations.
- Admission's size limits and fee ranking: eviction takes any waiting transaction (`Admission.StepMempool`).
- The mempool's durable copy and the AI-workload route to coinbase-only blocks; a round the producer may not mine leaves mempool and counter alone.
- Mining.PlanPartitions: says the block is valid only when no build has just failed, because one singled out of a valid batch may not be a valid block (see `Mining.FirstAloneIsValidIff`).
- Queue metrics and the results channel's capacity; a worker that stops is one step that strands what is queued.
- Record and consent signatures, the anchor's check against the chain, and the rebuild of an older file index.
- The rest of the manifest, such as schedule and signature checks.
- Sponsor.CapsHoldForever: assumes a clock that does not go back and decisions committed one at a time, as the decision lock gives.
- The grant's proof, receipt and root checks are verdicts in the claim; signing and submitting are the event's outcome.
- Reading validator ids and modes from the environment, and static weight tables.
- Nullifiers, commitments, ephemeral seeds and time buckets, which are hashes of their inputs.
- Networking, REST, CLI and user interfaces, floating-point pricing and the modules the node does not build.
