# Verified models of the Acurast runtime

A Dafny model of the state machines at the centre of the Acurast parachain, with proofs of what they
keep over every run. Five parts:

- **State aggregator** (`Powers`, `Positions`, `Forest`, `Proofs`, `ProofTheorems`, `LeafLists`, `MmrQueue`,
  `MmrAssembly`, `MmrSteps`, `Mmr`, `StateAggregator`): the Merkle mountain range of the ink contract. A flat map
  from positions to hashes, with peaks found by arithmetic and proofs found by walking a queue, is shown to be a
  forest of perfect binary trees. Generated proofs verify, and only for what is in the tree.
- **Compute pallet, stakes and delegations** (`StakingBase`, `StakingSums`, `StakingBooks`, `StakingMoves`,
  `StakingEffects`, `StakingRuns`, `StakingTheorems`, `StakingExact`, `StakingRules`, `StakingWeights`,
  `StakingTotals`, `StakingExample`, `StakingOvershoot`, `StakingSlashed`, `StakingStale`, `Slashing`, `Staking`):
  reward per weight with debts rounded up and accruals rounded down, cooldowns, slashes, stale delegations, moved
  delegations, totals and one lock per account.
- **Compute pallet, rewards** (`SlidingBuffers`, `ProvisionalBuffers`, `EpochBudget`, `BudgetShares`, `StakedRewards`,
  `RewardFlow`, `MetricRewards`, `MetricRuns`, `MetricShares`, `MetricExamples`, `MetricPallet`): the budgets of an epoch
  for staked compute, where they go, and the rewards claimed for metrics.
- **Marketplace** (`Schedules`, `JobMarket`, `JobRuns`, `JobRules`, `JobExample`, `Marketplace`, `KeyIds`): whether
  schedules overlap, the life of a job from registration to its end, its locked budget, its two indices, and the key ids
  of deployments.
- **Bridge** (`Quorums`, `Bridge`, `BridgeBooks`, `BridgeSteps`, `BridgeRuns`, `BridgeRules`, `BridgeExample`,
  `Hyperdrive`): messages with oracle quorums, held fees, retries and clean-up, and the token vault.

`Wrappers`, `Arithmetic` and `MapSums` are shared helpers.

Each part has the same shape. A record holds the storage an operation touches. Functions give the state after each
operation, or none where the operation fails. Lemmas show that each operation keeps an invariant, and theorems draw
conclusions over `Run`, the state after any list of calls. A class holds the record and does what the pallet does,
step by step and in its order, with loops where the pallet has loops. Its methods are proved to yield exactly the
functions' states, to succeed exactly when they do, and to leave the state alone when they fail.

## Where the code does less than one might expect

- A distribution divides by the weights of an epoch ago but is paid on the weights of today. A delegation that joins
  between the two is paid from what others were promised. `StakingTheorems.ExcessRun` says over every run exactly when
  what is promised stays within what was distributed, and `StakingExample.JoinBeforeDistribution` is a run in which it
  does not.
- `delegate_more_for` and `redelegate_for` end the delegation, which transfers its reward, and then transfer the same
  amount again. `StakingTheorems.AgainRun` says over every run exactly when a pool transfers nothing twice: every
  delegation moved out of it has no reward due at that moment. `StakingExample.RewardTransferredTwice` is a run in which
  10 are distributed, under a covered distribution, and 20 received. `StakingTheorems.NothingDueAfterWithdrawal` shows
  that compounding, which withdraws first, is not affected.
- `StakingTheorems.PoolSolvency` holds where neither happens, and each of the two runs above meets one of its two
  conditions and fails the other.
- A slash may exceed the committer's stake. The total stake then goes down by the slash, the stake only to zero.
  `StakingTheorems.TotalStakeExact` is an if and only if, `StakingOvershoot.SlashBeyondStake` a run on the failing side.
- A slash of a commitment in its cooldown sets its slash weight to the reduced reward weight, so later slashes take less
  from the committer and more from its delegators: `StakingWeights.SlashWeightWhen` is the exact condition,
  `StakingSlashed.SlashWeightLost` an instance.
- A slash of a delegation left from before its committer staked again is taken off the total of the new delegations,
  which then is too low: `StakingTotals.TotalsExactWhen` is an if and only if over every run,
  `StakingStale.TotalFallsShort` a run on the failing side.
- A metric counts towards a manager's sum even where the pool does not exist yet, and is then missing from the pool's
  total. And the ratio of an epoch that is over can still be changed while it is claimed for, without being validated.
  Either way twice the reward can be paid: `MetricExamples.LateCreation`, `MetricExamples.PastRatios`.
  `MetricRuns.CreateExact` and `MetricRewards.ModifyExact` say exactly which calls do this, and
  `MetricRuns.MetricRewardsBounded` that without them the reward is never exceeded.
- `overlaps` takes a period that begins before the schedule for one that begins at its absolute start time, and does not
  look further than one interval. `Schedules.OverlapsExactly` gives the exact condition, `Schedules.BlindSpot` an instance.
- The quick check in `fits_schedule` uses `overlaps`, so schedules that do overlap can pass it; `Schedules.AcceptedWhole`,
  `Schedules.AcceptedOther` and `Schedules.AcceptedSingle` say exactly when. And one execution of a new assignment is
  tried against a full schedule with the wrong delay: `Schedules.AcceptedOne`, `Schedules.WrongDelay`,
  `Schedules.DelayExact`.
- Deploying a script a second time gives its deployment a new key id, so reusing the first job's keys then yields the
  second job's: `KeyIds.SecondDeploymentReplacesKey`. `KeyIds.ReuseKeepsKeyWhen` is the exact condition.
- The documentation of `do_commit` says that metrics of unknown pools are skipped; the manager's sums do count them.

## What the model takes from outside

- Balances, free or reducible, existential deposits, weights of calls, and whether a metric or an attestation qualifies are
  parameters (`Env`, `admissible`, `accepted`, `registrable`, `lockable`). The result is claimed for all their values.
- Integers are unbounded; `u128`, `U256` and block-number overflow, which the code answers with an error or by
  saturating, are not modelled. Per-things are fractions that round down.
- Hashes are injective and a signature verifies for one key and one content only. `merge` is any function; it is assumed
  injective in `ProofTheorems.ProofSoundness` only.
- `ckb_merkle_mountain_range`, `pallet_balances` and `pallet_uniques` are not part of this model. The position helpers of
  the first are defined here; a currency lock is overwritten when it is set; a commitment id belongs to one account for
  good.
- The bridge's vaults and the pallet account sign nothing, and balances move only through the operations modelled: an
  ordinary payment to a vault would come on top of the sums stated.
- What a report, an acknowledgment or the end of a job pays leaves the job's budget; that the runtime passes it on to its
  handler of imbalances, or splits a matcher's fee with its fee manager, is not modelled.
- Calls that fail are rolled back. The two errors that are swallowed are modelled: a failed distribution
  (`StakedRewards.Rewards.RewardCommitment`) and a failed processing of a message (`Hyperdrive.Pallets.ReceiveMessage`).
- Some records carry amounts the pallets do not store, to state what was paid in all: `paid`, `again`, `distributed`,
  `excess`, `overshoot`, `charged`, `entitled`, `unseen`, `ratios`, `credited`, `withdrawn`, `taken`, `funder`,
  `credits`, `removed`, `commission`, `funded`,
  `spent`, `refunded`. No operation's outcome depends on them.

## Model

| member | source | states |
|---|---|---|
| `Positions.SizeIsTwiceLeavesLessPeaks` | hyperdrive/ink/state/lib.rs:67-87 | A range of n leaves has 2n minus popcount(n) nodes. |
| `Positions.PeakMapIsLeafCount` | hyperdrive/ink/state/lib.rs:67-87 | The peak map computed greedily from the size of a range is the number of its leaves. |
| `Positions.PeaksAreNodes` | hyperdrive/ink/state/lib.rs:90-103 | The peak positions computed from the size are those of the perfect trees that make up the leaf count in binary. |
| `Positions.HeightOfPos` | hyperdrive/ink/state/lib.rs:120-178 | The height computed from a position is the height of the node stored there. |
| `Positions.HeightAfterPos` | hyperdrive/ink/state/lib.rs:120-178 | The test on the height of the next position tells right siblings from left ones. |
| `Positions.PosInjective` | hyperdrive/ink/state/lib.rs:67-87 | No two nodes share a position. |
| `Positions.PosSurjective` | hyperdrive/ink/state/lib.rs:67-87 | Every position below the size is that of a node that is complete. |
| `Forest.HashIsPerfect` | hyperdrive/ink/state/lib.rs:67-87 | Each node's hash is the perfect-tree hash of its power-of-two block of leaves. |
| `Forest.RootIsRangeRoot` | hyperdrive/ink/state/lib.rs:90-112 | Bagging the peaks from the right gives the root defined by recursion on the leaves. |
| `Forest.StoreGrows` | hyperdrive/ink/state/lib.rs:67-87 | The nodes a leaf completes, written behind the others, turn the flat store of a range into that of the longer range. |
| `Forest.StoreUnique` | hyperdrive/ink/state/lib.rs:67-87 | The flat store is determined by the leaves. |
| `Forest.LeavesUnique` | hyperdrive/ink/state/lib.rs:67-87 | And determines them: two ranges with the same store have the same leaves. |
| `ProofTheorems.ProofRoundTrip` | hyperdrive/ink/state/lib.rs:184-226 | For every range and every non-empty ascending list of its leaves, the root recomputed from these leaves and their proof is the range's root. |
| `ProofTheorems.ProofSoundness` | hyperdrive/ink/state/lib.rs:184-226 | With an injective merge, any proof whatever that recomputes the root proves only leaves of the range at their own indices. |
| `LeafLists.TakeWhile` | hyperdrive/ink/state/lib.rs:242-249 | Splits off exactly the leading positions up to a peak, in order, and returns the others. |
| `LeafLists.SplitPositions` | hyperdrive/ink/state/lib.rs:184-226 | Splitting ascending positions at a peak is splitting leaf indices at the end of its mountain, also when some lie beyond the range. |
| `MmrQueue.WholeTurn` | hyperdrive/ink/state/lib.rs:120-178 | One turn of the queue keeps the proof emitted so far plus what remains equal to the level-by-level proof. |
| `MmrQueue.TurnedWeight` | hyperdrive/ink/state/lib.rs:120-178 | Every turn of the queue makes it lighter, so the walk ends. |
| `Mmr.BagRhsPeaks` | hyperdrive/ink/state/lib.rs:105-112 | Popping and pushing computes the right-to-left bagging of the peaks, and nothing for none. |
| `Mmr.Range.Push` | hyperdrive/ink/state/lib.rs:67-87 | Over the store of a range: never fails, and returns exactly the nodes the leaf completes, at the old size; a failure changes nothing. |
| `Mmr.Range.GetRoot` | hyperdrive/ink/state/lib.rs:90-103 | The root of the range, also for one leaf; an error exactly for the empty range. |
| `Mmr.Range.GenProofForPeak` | hyperdrive/ink/state/lib.rs:120-178 | Appends what one mountain contributes, for no, one or many leaves below it. |
| `Mmr.Range.Walk` | hyperdrive/ink/state/lib.rs:120-178 | The walk over the queue computes the siblings of the level-by-level proof. |
| `Mmr.Range.VisitPeaks` | hyperdrive/ink/state/lib.rs:198-216 | The positions left over are none exactly when all lie in the range, and bagging the peaks passed last gives the whole proof. |
| `Mmr.Range.Assemble` | hyperdrive/ink/state/lib.rs:198-226 | The proof of ascending leaf positions, or an error exactly when some lie beyond the range. |
| `Mmr.Range.GenProof` | hyperdrive/ink/state/lib.rs:184-226 | Succeeds exactly on non-empty lists of leaf positions of the range, in any order and with duplicates; says which error otherwise. |
| `StateAggregator.Contract.constructor` | hyperdrive/ink/state/lib.rs:337-359 | An empty first snapshot. |
| `StateAggregator.Contract.FinalizeSnapshot` | hyperdrive/ink/state/lib.rs:368-401 | Closes the snapshot exactly when it is due and keeps the tree the range of the open snapshot's leaves. |
| `StateAggregator.Contract.Snapshot` | hyperdrive/ink/state/lib.rs:422-424 | Succeeds exactly when a snapshot is closed; a failure leaves everything as it was. |
| `StateAggregator.Contract.Insert` | hyperdrive/ink/state/lib.rs:427-456 | Only the configured contract inserts; the leaf joins the open snapshot, after closing one that is due, and no store error occurs. |
| `StateAggregator.Contract.Append` | hyperdrive/ink/state/lib.rs:441-453 | The tree is the range of the leaves so far and the new one; the returned index is the leaf's position. |
| `StateAggregator.Contract.SnapshotRoot` | hyperdrive/ink/state/lib.rs:481-485 | The root of the open snapshot's leaves. |
| `StateAggregator.Contract.GenerateProof` | hyperdrive/ink/state/lib.rs:459-468 | A proof exactly for leaf positions of the snapshot, and recomputing a root from those leaves with it gives the snapshot's root; never an inconsistent store. |
| `StateAggregator.GeneratedProofVerifies` | hyperdrive/ink/state/lib.rs:459-468 | Every proof generated verifies, for all leaves and all position lists. |
| `StateAggregator.InsertKeepsOrder` | hyperdrive/ink/state/lib.rs:427-456 | A message closes at most one snapshot, and closed ones keep their level. |
| `StateAggregator.ClosedWhenDue` | hyperdrive/ink/state/lib.rs:368-401 | A snapshot is closed if and only if more than its duration has passed and the provider inserts or closing is requested; a leaf is inserted into a snapshot within its duration, behind the others. |
| `StateAggregator.RunSpaced` | hyperdrive/ink/state/lib.rs:368-456 | Over every run under one duration, closed snapshots follow each other by more than that duration, without gaps. |
| `StateAggregator.Contract.Configure` | hyperdrive/ink/state/lib.rs:404-419 | Only the owner configures, the arguments take effect in order, and the tree is untouched. |
| `StateAggregator.RunKeepsOrder` | hyperdrive/ink/state/lib.rs:368-456 | Over every run of insertions, snapshots and configurations, snapshots are numbered and levelled in order and earlier ones are kept. |
| `StakingBase.MemoryHistory` | pallets/compute/src/datastructures/memory_buffer.rs:42-131 | A set value is read from its time on; before, what was read is read or forgotten, never another value. |
| `StakingBase.AccrualCovered` | pallets/compute/src/staking.rs:1228-1282 | What an accrual moves, rounded down against a debt rounded up, is at most what was pending. |
| `StakingBase.DivisorExact` | pallets/compute/src/staking.rs:443-456 | A raise per weight never gives out more than was distributed, for every reward, if and only if the divisor is at least the weight paid out on. |
| `StakingBooks.RewardableWithinAmount` | pallets/compute/src/staking.rs:1150-1155 | No stake in a sound state has more rewardable than staked. |
| `StakingMoves.SanitizeIdle` | pallets/compute/src/staking.rs:1146-1206 | Sanitizing changes nothing. |
| `StakingMoves.AccruedOk` | pallets/compute/src/staking.rs:1209-1284 | Accruing keeps the weights and never raises what the pool owes to the delegation. |
| `StakingExact.AccruedExact` | pallets/compute/src/staking.rs:1228-1282 | The slash accrued is what the slash weight is due less the debt, rounded down, and so is the reward, up to the one unit a debt is rounded up by: both from below and from above. |
| `StakingExact.AccrualPath` | pallets/compute/src/staking.rs:1228-1282 | Accruing in between changes no slash, and a reward by at most one unit. |
| `StakingMoves.ShrunkOk` | pallets/compute/src/staking.rs:992-1035 | Lowering a stake lowers its weights and promises nothing new. |
| `StakingEffects.JoinSound` | pallets/compute/src/staking.rs:725-834 | A delegation joins with nothing pending; sums, totals, lock and solvency are kept. |
| `StakingEffects.ShrinkSound` | pallets/compute/src/staking.rs:906-1056 | A slash of a delegator, live or stale, keeps sums, totals, lock and solvency. |
| `StakingEffects.CoolSound` | pallets/compute/src/staking.rs:1398-1479 | So does starting a cooldown, which settles and re-weighs the delegation. |
| `StakingEffects.LeaveSound` | pallets/compute/src/staking.rs:1543-1654 | So does ending a delegation. |
| `StakingEffects.DistributeSound` | pallets/compute/src/staking.rs:443-456 | A distribution raises what is owed by at most what it adds, up to the excess of a short divisor. |
| `StakingRuns.RunSound` | pallets/compute/src/staking.rs:462-1899 | The whole invariant holds after every run of calls, failed ones included. |
| `StakingRuns.SlashTaken` | pallets/compute/src/staking.rs:1065-1098 | Applying a delegator's slash takes it in full or takes the whole stake. |
| `StakingExact.SlashReaches` | pallets/compute/src/staking.rs:1065-1098 | In every sound state the stake goes down by the slash accrued so far and since, or to zero, and the rest of the slash stays accrued. |
| `StakingSlashed.SlashReachesDelegator` | pallets/compute/src/staking.rs:1727-1899 | A run in which a tenth is slashed of 10 staked and 10 delegated: committer and delegator keep 9 each. |
| `StakingExact.SharesExact` | pallets/compute/src/staking.rs:1815-1845 | A slash is split in proportion to the slash weights, all of it, and the raise on the pool is the delegators' part per weight, rounded down. |
| `StakingExact.PoolSlashExact` | pallets/compute/src/staking.rs:1754-1802 | A pool's slash per missed epoch is the base slash by the pool's ratio by the part not delivered, each rounded down, from below and from above. |
| `StakingExact.WeightExact` | pallets/compute/src/staking.rs:498-505 | A weight is the amount by the period's part of the longest period, rounded down. |
| `StakingExact.DistributeExact` | pallets/compute/src/staking.rs:418-456 | A distribution raises the pool by the reward per weight, rounded down, leaves slashes alone and credits the committer. |
| `StakingExact.MovedExact` | pallets/compute/src/staking.rs:860-897 | A moved delegation begins anew with the amount before any slash plus what is added, on the same or the longer period, and the old one is gone. |
| `StakingTheorems.RecordsAgree` | pallets/compute/src/staking.rs:805-819 | In every reachable state recorded weights are the sums over live delegations, the delegator total the sum of an account's delegations, the lock that total plus the own stake, even though locking reads storage not yet written. |
| `StakingTheorems.OvershootRun` | pallets/compute/src/staking.rs:681-723 | The total's error never shrinks, and is unchanged exactly when every committer slash was within the stake. |
| `StakingOvershoot.SlashBeyondStake` | pallets/compute/src/staking.rs:681-723 | A run in which a slash exceeds the stake: 7 are recorded and 10 staked. |
| `StakingTheorems.TotalStakeExact` | pallets/compute/src/staking.rs:1121-1136 | The recorded total stake is the sum of all stakes and delegations if and only if no committer slash went beyond its stake. |
| `StakingTheorems.ExcessRun` | pallets/compute/src/staking.rs:443-456 | A pool's excess over its rewards never shrinks over a run, and is unchanged if and only if every distribution to it is covered: today's weight times the raise is within the delegators' reward. |
| `StakingTheorems.AgainRun` | pallets/compute/src/staking.rs:884-894 | What a pool's delegators were transferred a second time never shrinks over a run, and is unchanged if and only if every successful call that moves a delegation out of it finds no reward due. |
| `StakingTheorems.NothingDueAfterWithdrawal` | pallets/compute/src/staking.rs:1100-1109 | In every sound state nothing is due right after a successful withdrawal, so compounding transfers no reward twice. |
| `StakingExample.RewardTransferredTwice` | pallets/compute/src/staking.rs:836-897 | A run in which 10 are distributed and covered, and 20 received by adding to the delegation. |
| `StakingTheorems.PoolSolvency` | pallets/compute/src/staking.rs:1209-1325 | Over every run whose distributions to a pool are covered and in which no delegation is moved out of it with a reward due, its delegators' rewards paid, paid again, accrued and pending are at most those distributed. |
| `StakingTheorems.CoveredWhen` | pallets/compute/src/staking.rs:443-456 | A distribution is covered if the weight did not grow since its epoch, if there was no weight, and if there is no reward for delegators. |
| `StakingExample.JoinBeforeDistribution` | pallets/compute/src/staking.rs:443-456 | A run with a distribution that is not covered: a delegation joins between an epoch and its distribution of 20, delegators are given 10 and paid 20, nothing of it twice. |
| `StakingRules.StakeRule` | pallets/compute/src/staking.rs:462-559 | A stake begins if and only if there is none, within the limits and the balance with all locks, and is stored and locked as given. |
| `StakingRules.StakeMoreWhen` | pallets/compute/src/staking.rs:562-678 | A stake grows if and only if it is not in its cooldown, within the balance, with no shorter period and no commission raised beyond what is allowed. |
| `StakingRules.StakeMoreRule` | pallets/compute/src/staking.rs:562-678 | It grows, with lock and total, by exactly what is added, and keeps its beginning, its pool and what it accrued. |
| `StakingRules.CoolCommitterRule` | pallets/compute/src/staking.rs:1366-1392 | A cooldown begins once, in the current block, and leaves the configured part of the stake rewardable. |
| `StakingRules.WithdrawCommitterRule` | pallets/compute/src/staking.rs:1328-1364 | A committer is paid exactly what it has accrued, which is recorded, and keeps its terms. |
| `StakingRules.EndRule` | pallets/compute/src/staking.rs:1675-1725 | A commitment ends if and only if its cooldown is over, and exactly its stake is unlocked. |
| `StakingRules.SlashRule` | pallets/compute/src/staking.rs:1803-1896 | A slash comes after the last one by an epoch at least, is dated, and takes its parts from the stake and on the pool. |
| `StakingRules.DelegateWhen` | pallets/compute/src/staking.rs:725-834 | A delegation begins if and only if there is none, the commitment is not in its cooldown, and limits, the commitment's period and the balance with all locks allow it. |
| `StakingRules.DelegateRule` | pallets/compute/src/staking.rs:725-834 | It begins with what is delegated, which is added to lock and totals. |
| `StakingRules.SlashBond` | pallets/compute/src/staking.rs:1065-1098 | Applying a slash keeps the terms of the delegation, what it has accrued and every other delegation. |
| `StakingRules.WithdrawRule` | pallets/compute/src/staking.rs:1306-1325 | A withdrawal pays exactly the reward due and leaves none. |
| `StakingRules.CoolRule` | pallets/compute/src/staking.rs:1398-1479 | A live delegation cools down once, since the committer's cooldown or since now, and only the configured part stays rewardable. |
| `StakingRules.LeaveRule` | pallets/compute/src/staking.rs:1543-1654 | A delegation that can be withdrawn ends if and only if it is stale or has waited for its period since its own or the committer's cooldown; a kickout ends stale ones only. |
| `StakingRules.MoveRule` | pallets/compute/src/staking.rs:836-883 | Only live delegations are moved: outside their cooldown to add to them, and after the blocking period, or from a cooling commitment, to another one. |
| `StakingRules.OthersKept` | pallets/compute/src/staking.rs:725-1654 | No call changes a delegation it is not about. |
| `StakingRules.BondKept` | pallets/compute/src/staking.rs:725-1654 | Over every run a delegation stays on its terms until its delegator cools, moves or ends it. |
| `StakingWeights.SelfWeightsFollow` | pallets/compute/src/staking.rs:649-660 | In every reachable state a committer's reward weight is that of its rewardable stake and its slash weight that of its stake, or, in its cooldown only, the reward weight. |
| `StakingWeights.SlashWeightWhen` | pallets/compute/src/staking.rs:704-715 | After a slash of the stake the slash weight is that of the stake left if and only if the commitment is not in its cooldown, or the rewardable part weighs the same. |
| `StakingTotals.DelegationTotal` | pallets/compute/src/staking.rs:1748-1751 | In every reachable state the total recorded for a commitment is at most the sum of its live delegations, and that sum if no delegation left from before the committer staked again was slashed. |
| `StakingTotals.TotalsExactWhen` | pallets/compute/src/staking.rs:1020-1021 | Over every run the recorded totals are always exact if and only if no call slashes a delegation left from before, with an amount, of a committer that has staked again and has new delegations. |
| `StakingTotals.TotalKeptWhen` | pallets/compute/src/staking.rs:906-1057 | One slash of a delegation keeps an exact total exact if and only if it takes nothing or the delegation is not such a one. |
| `StakingStale.TotalFallsShort` | pallets/compute/src/staking.rs:906-1057 | A run after which 10 are delegated to a commitment and 9 recorded. |
| `StakingSlashed.SlashWeightLost` | pallets/compute/src/staking.rs:681-723 | A run in which a slash during the cooldown leaves 9 at stake and a slash weight of zero. |
| `StakingTheorems.NoEpochChargedTwice` | pallets/compute/src/staking.rs:1754-1802 | Over every run a pool is charged at most as many epochs as lie between the first and the last slashing epoch. |
| `Slashing.TotalSlash` | pallets/compute/src/staking.rs:1754-1802 | The loop over pools computes the sum of the pools' slashes. |
| `Slashing.SlashScale` | pallets/compute/src/staking.rs:1754-1802 | Nothing for a pool that delivered, everything for one that delivered nothing, at most the stake per missed epoch. |
| `Slashing.ChargeBound` | pallets/compute/src/staking.rs:1754-1802 | One slash charges a pool at most the epochs since the last slash. |
| `Staking.Pallet.LockFunds` | pallets/compute/src/staking.rs:1998-2044 | Locks what all reasons add up to; fails exactly when the balance is too low, changing nothing. |
| `Staking.Pallet.UnlockFunds` | pallets/compute/src/staking.rs:2050-2071 | Lowers the lock of one account by the amount. |
| `Staking.Pallet.StakeFor` | pallets/compute/src/staking.rs:462-559 | Succeeds exactly under the stated guard, with the stated new books, and keeps the invariant; a failure changes nothing. |
| `Staking.Pallet.StakeMoreFor` | pallets/compute/src/staking.rs:562-678 | The same, for adding to a stake and prolonging it. |
| `Staking.Pallet.DecreaseCommitterStake` | pallets/compute/src/staking.rs:681-723 | The same, for a slash of the committer that may exceed the stake. |
| `Staking.Pallet.CooldownCommitmentFor` | pallets/compute/src/staking.rs:1366-1392 | The same, for the cooldown of a commitment. |
| `Staking.Pallet.WithdrawCommitterFor` | pallets/compute/src/staking.rs:1328-1364 | The same, for paying out a committer. |
| `Staking.Pallet.EndCommitmentFor` | pallets/compute/src/staking.rs:1675-1725 | The same, for ending a commitment; its delegations become stale. |
| `Staking.Pallet.DelegateFor` | pallets/compute/src/staking.rs:725-834 | The same, for a new delegation or one to be replaced. |
| `Staking.Pallet.AccrueDelegator` | pallets/compute/src/staking.rs:1209-1284 | Succeeds exactly for existing delegations; moves pending rewards and slashes to accrued. |
| `Staking.Pallet.DecreaseDelegatorStake` | pallets/compute/src/staking.rs:906-1056 | Takes at most the target and returns what was taken and what was not; weights follow if the delegation is live. |
| `Staking.Pallet.Rerate` | pallets/compute/src/staking.rs:953-1035 | The delegation's and the commitment's weights after the stake shrank. |
| `Staking.Pallet.ApplyDelegatorSlash` | pallets/compute/src/staking.rs:1065-1098 | Accrues, then takes the accrued slash from the stake. |
| `Staking.Pallet.WithdrawDelegationFor` | pallets/compute/src/staking.rs:1306-1325 | Accrues, slashes and pays out, in this order. |
| `Staking.Pallet.CooldownDelegationFor` | pallets/compute/src/staking.rs:1398-1479 | Starts the cooldown of a delegation and lowers its reward weight. |
| `Staking.Pallet.EndDelegationFor` | pallets/compute/src/staking.rs:1543-1654 | Pays out and removes a delegation, once its cooldown is over, or anyone's stale one. |
| `Staking.Pallet.Move` | pallets/compute/src/staking.rs:884-895 | Ends a delegation, transfers its reward once more and delegates again; fails exactly when one of these does, changing nothing. |
| `Staking.Pallet.DelegateMoreFor` | pallets/compute/src/staking.rs:836-897 | The same, for a higher amount or a longer cooldown period; not while the delegation is in cooldown, and never for a shorter period. |
| `Staking.Pallet.RedelegateFor` | pallets/compute/src/staking.rs:1481-1541 | The same, for another commitment, once the blocking period is over or at once if the commitment left is in cooldown. |
| `Staking.Pallet.DistributeReward` | pallets/compute/src/staking.rs:418-456 | Credits the committer and raises the pool's reward per weight by the epoch's weights. |
| `Staking.Pallet.DoSlash` | pallets/compute/src/staking.rs:1727-1899 | Slashes at most once for an epoch, the committer at once and the delegators through the pool. |
| `Staking.Pallet.SpreadSlash` | pallets/compute/src/staking.rs:1877-1896 | Raises the pool's slash per weight and dates the slash. |
| `EpochBudget.ShareBound` | pallets/compute/src/staking.rs:366-386 | A commitment's share and bonus, each rounded down, are together at most its exact share of the budget. |
| `BudgetShares.RewardExact` | pallets/compute/src/staking.rs:366-386 | Reward and bonus are each the exact part of the budget, rounded down, from below and from above. |
| `BudgetShares.BudgetSpent` | pallets/compute/src/staking.rs:343-439 | In every run, once every commitment scored in a pool has had its turn and taken its share, what is left of the budget is less than two for each of them, and nothing is overspent. |
| `BudgetShares.TakenDistributed` | pallets/compute/src/staking.rs:388-439 | What a pool's budget records as distributed goes up by the reward, rounded down, of that pool alone. |
| `EpochBudget.TakenShares` | pallets/compute/src/staking.rs:356-439 | Each pool is charged the commitment's share once, scores untouched. |
| `EpochBudget.ScoredGood` | pallets/compute/src/staking.rs:316-333 | Scoring keeps the total score the sum of the scores. |
| `EpochBudget.TurnOnce` | pallets/compute/src/functions.rs:374-395 | Over every run, once a commitment had its turn in an epoch, another one in that epoch changes nothing, whatever happens in between. |
| `EpochBudget.OpenedGood` | pallets/compute/src/functions.rs:136-173 | A new epoch's budgets start with no score and nothing charged. |
| `EpochBudget.BudgetNeverOverspent` | pallets/compute/src/staking.rs:316-439 | Over every run, each pool's total score is the sum of the scores of that epoch, and all payouts together are at most the budget. |
| `StakedRewards.ScoreBounds` | pallets/compute/src/staking.rs:233-338 | A score is within the commitment's weight and what the measured metric supports, its bonus within the busy part, and none for a commitment that delivered less than committed. |
| `StakedRewards.ScoreExact` | pallets/compute/src/staking.rs:233-338 | A score is the greatest number its weight and the bounded metric support, its bonus the greatest that bonus metric and busy bonus allow on the committer's own score; fails or is skipped exactly where stated. |
| `StakedRewards.SplitProportional` | pallets/compute/src/staking.rs:388-416 | The delegators' part is what their weight is due, rounded up, less the commission on it, rounded down. |
| `StakedRewards.SplitExact` | pallets/compute/src/staking.rs:388-416 | Committer and delegators together get exactly the reward, for every commission. |
| `StakedRewards.PayoutExact` | pallets/compute/src/staking.rs:343-459 | What committer and delegators are paid over all pools is exactly the shares taken from the budgets. |
| `RewardFlow.RewardsConserved` | pallets/compute/src/staking.rs:343-459 | Over every run of epochs, turns and staking calls, delegators' rewards, committers' credits and bonuses add up to exactly what was taken from the budgets, and to at most the budgets of the epochs that are over; the credits are what committers have accrued and were paid. |
| `StakedRewards.Rewards.StoreStakedComputeReward` | pallets/compute/src/functions.rs:136-173 | Opens the epoch's budgets and keeps the invariant. |
| `StakedRewards.Rewards.Distribute` | pallets/compute/src/staking.rs:343-459 | Charges every pool and pays committer, delegators and bonus exactly their parts; nothing is charged for a commitment without weight. |
| `StakedRewards.Rewards.PayPool` | pallets/compute/src/staking.rs:357-438 | Adds one pool's reward, split, and its bonus to the payout, and charges the pool. |
| `StakedRewards.Rewards.ScoreCommitment` | pallets/compute/src/staking.rs:233-338 | Scores pool by pool, up to the first failure. |
| `StakedRewards.Rewards.RewardCommitment` | pallets/compute/src/functions.rs:374-395 | Distributes and scores once per epoch; a failed distribution pays nothing and does not stop the scoring. |
| `SlidingBuffers.SetGet` | pallets/compute/src/datastructures/sliding_buffer.rs:66-122 | A written value is read back, the epoch before is kept, a skipped one is cleared. |
| `ProvisionalBuffers.SetFrom` | pallets/compute/src/datastructures/provisional_buffer.rs:36-81 | From the present on, a set value holds exactly from its epoch on; the present value is kept if and only if that epoch is ahead or the value the same. |
| `ProvisionalBuffers.SetWhen` | pallets/compute/src/datastructures/provisional_buffer.rs:36-72 | Setting fails if and only if a change still ahead and before the one set would be lost. |
| `MetricRewards.RecordedClaim` | pallets/compute/src/functions.rs:400-441 | What counts as claimed grows by exactly the claim returned. |
| `MetricRewards.ClaimsEntitled` | pallets/compute/src/functions.rs:240-279 | The parts claimed by a commit are within what its manager is entitled to. |
| `MetricRewards.ValidatedIsRational` | pallets/compute/src/functions.rs:109-129 | Testing the current epoch and those in which a ratio changes accepts if and only if ratios add up to at most one in every epoch from now on. |
| `MetricRewards.ModifyExact` | pallets/compute/src/lib.rs:606-673 | The ratio claims are paid by is kept if and only if the change is for the current epoch or later, or is none; it is not raised if and only if it is for those or no higher. |
| `MetricRuns.RatiosBounded` | pallets/compute/src/functions.rs:109-129 | In every reachable state the ratios add up to at most one, in every epoch from the current one on. |
| `MetricRuns.TotalsConserved` | pallets/compute/src/functions.rs:400-441 | Over every run, a pool's total plus what it missed before it existed is the sum over managers. |
| `MetricRuns.RecordedUnseen` | pallets/compute/src/functions.rs:400-441 | A metric is missed by its pool if and only if it is not zero and the pool does not exist. |
| `MetricRuns.CreateExact` | pallets/compute/src/functions.rs:204-238 | A new pool misses nothing it will be claimed for if and only if no metrics were given for it in the epoch. |
| `MetricRuns.WithinRatio` | pallets/compute/src/functions.rs:240-279 | All claims on a pool that missed nothing are within the pool's ratio. |
| `MetricShares.PartLow` | pallets/compute/src/functions.rs:262-277 | A manager's part, with both roundings, is less than two short of its exact part of the ratio. |
| `MetricShares.RatioSpent` | pallets/compute/src/functions.rs:240-279 | In every run, once every manager with a sum in a pool that missed no metric has a metric for it again, and the ratio stayed, less than two for each of them is left of the pool's ratio, and nothing overspent. |
| `MetricShares.CommitPays` | pallets/compute/src/functions.rs:286-349 | A commit for existing pools pays the reward by exactly the parts it entitles to, at most the whole, rounded down. |
| `MetricShares.UnknownPoolPaysNothing` | pallets/compute/src/functions.rs:240-279 | A claim for an unknown pool makes the whole commit's reward nothing. |
| `MetricRuns.MetricRewardsBounded` | pallets/compute/src/functions.rs:240-279 | Over every run in which pools are created before metrics are given for them and no past ratio is raised, payouts for an epoch are at most its reward. |
| `MetricRuns.CarefulIsTimely` | pallets/compute/src/functions.rs:400-441 | Which is the case if every metric is for an existing pool and ratios change from the current epoch on. |
| `MetricRuns.ClaimOnce` | pallets/compute/src/functions.rs:400-441 | Over every run, once a manager has committed a metric for a pool, nothing it commits later in the epoch claims for that pool, whatever happens in between. |
| `MetricExamples.LateCreation` | pallets/compute/src/functions.rs:400-441 | A pool created after metrics were given for it: 200 are paid for a reward of 100. |
| `MetricExamples.PastRatios` | pallets/compute/src/lib.rs:606-673 | Ratios of a past epoch changed between two claims: 200 are paid for a reward of 100, and no metric was missed. |
| `MetricPallet.Pallet.AdvanceEpoch` | pallets/compute/src/functions.rs:83-98 | Moves to the next epoch with its reward; the ratios that count are those of the epoch just over. |
| `MetricPallet.Pallet.CreatePool` | pallets/compute/src/functions.rs:204-238 | Adds a pool with no metrics if the ratios still fit, or changes nothing. |
| `MetricPallet.Pallet.ModifyPool` | pallets/compute/src/lib.rs:606-673 | Sets a ratio from an epoch on if the ratios still fit and no change ahead is lost, or changes nothing. |
| `MetricPallet.ValidateMetricPools` | pallets/compute/src/functions.rs:109-129 | The loops over epochs and pools accept exactly valid ratios. |
| `MetricPallet.RatiosFit` | pallets/compute/src/functions.rs:109-129 | Adding up ratios and stopping at more than one tells whether the sum is at most one. |
| `MetricPallet.Pallet.UpdateMetricsEpochSum` | pallets/compute/src/functions.rs:400-441 | Adds to the pool's and the manager's sums and returns last epoch's sum at the first metric only. |
| `MetricPallet.Pallet.DoClaim` | pallets/compute/src/functions.rs:240-279 | The reward for the claims, nothing if a pool is unknown. |
| `MetricPallet.Pallet.Commit` | pallets/compute/src/functions.rs:286-349 | Records all metrics and pays the claims. |
| `MetricPallet.Pallet.RecordMetrics` | pallets/compute/src/functions.rs:443-546 | Records the metrics one by one and collects the claims. |
| `Schedules.ExecutionsFit` | pallets/acurast/common/src/types.rs:374-383 | The execution count is the number of start times before the end. |
| `Schedules.ScheduleIter.constructor` | pallets/acurast/common/src/types.rs:390-397 | Nothing produced yet. |
| `Schedules.ScheduleIter.Next` | pallets/acurast/common/src/types.rs:500-519 | The start times in order, then nothing once. |
| `Schedules.OverlapsExactly` | pallets/acurast/common/src/types.rs:455-480 | The overlap check answers yes if and only if the period overlaps an execution and the arithmetic is not blind, as defined by the arguments. |
| `Schedules.BlindSpot` | pallets/acurast/common/src/types.rs:455-480 | Two valid schedules with overlapping executions that it lets pass. |
| `Schedules.MergeScan` | pallets/marketplace/src/match_checker.rs:580-607 | Merging two spaced lists of intervals and scanning neighbours accepts if and only if every interval of one is apart from every interval of the other. |
| `Schedules.MergeAndScan` | pallets/marketplace/src/match_checker.rs:580-607 | The check of two full schedules accepts if and only if all their executions are disjoint. |
| `Schedules.PassedIsDisjoint` | pallets/marketplace/src/match_checker.rs:566-579 | Schedules that the quick check rightly passes are disjoint. |
| `Schedules.AcceptedWhole` | pallets/marketplace/src/match_checker.rs:566-607 | Two full schedules are found to fit if and only if they are disjoint or the quick check is blind. |
| `Schedules.AcceptedOther` | pallets/marketplace/src/match_checker.rs:608-620 | A full schedule is found to fit with one existing execution if and only if none of its executions overlaps it, or one of the two checks is blind. |
| `Schedules.AcceptedOne` | pallets/marketplace/src/match_checker.rs:621-633 | One execution is found to fit with a full schedule if and only if the schedule's range is not met, or the execution does not overlap that schedule under the new assignment's delay, or a check is blind. |
| `Schedules.AcceptedOneSame` | pallets/marketplace/src/match_checker.rs:621-633 | With equal delays, if and only if it overlaps none of that schedule's executions, or a check is blind. |
| `Schedules.AcceptedSingle` | pallets/marketplace/src/match_checker.rs:634-663 | Two single executions are found to fit if and only if they are apart, or the quick check is blind. |
| `Schedules.AcceptedMissing` | pallets/marketplace/src/match_checker.rs:608-663 | If an index names no execution, exactly the quick check decides. |
| `Schedules.Fits` | pallets/marketplace/src/match_checker.rs:557-668 | Exactly when a new assignment is found to fit with an existing one, for full schedules and single executions on either side. |
| `Schedules.FitsSchedule` | pallets/marketplace/src/match_checker.rs:557-668 | A new assignment is accepted exactly when it is found to fit with every existing one that counts. |
| `Schedules.WrongDelay` | pallets/marketplace/src/match_checker.rs:620-632 | A single execution that overlaps a full schedule is accepted, because the other schedule is tried with the new assignment's delay. |
| `Schedules.DelayExact` | pallets/marketplace/src/match_checker.rs:620-632 | That answers for the other schedule's executions, whatever is tried, if and only if the two delays are the same. |
| `JobMarket.MatchingSound` | pallets/marketplace/src/match_checker.rs:29-197 | Matching keeps the invariant. |
| `JobMarket.RegisteringSound` | pallets/marketplace/src/hooks.rs:10-74 | Registering with or without an instant match keeps the invariant. |
| `JobMarket.MatchingLocked` | pallets/marketplace/src/hooks.rs:49-71 | It makes no difference whether the reward is locked before or after an instant match. |
| `JobMarket.Covered` | pallets/marketplace/src/lib.rs:974-1001 | A payment within a processor's part of the reward is always in the budget. |
| `JobMarket.PureAcknowledged` | pallets/marketplace/src/match_checker.rs:685-724 | The matcher of a job matched as a whole can always be paid. |
| `JobMarket.PureReported` | pallets/marketplace/src/functions.rs:52-80 | A report on such a job can always be paid, and is. |
| `JobMarket.ReportAdvances` | pallets/marketplace/src/functions.rs:82-125 | A report is for the next expected execution or a later one, and timely for it unless it is the current one. |
| `JobMarket.ReportStep` | pallets/marketplace/src/functions.rs:82-125 | After a report a later execution is expected, and the report is counted. |
| `JobRuns.ReportsIncrease` | pallets/marketplace/src/functions.rs:82-125 | Over every run of a job matched as a whole, executions a processor reports strictly increase, whatever happens between two reports short of a new registration. |
| `JobRuns.PureEnds` | pallets/marketplace/src/hooks.rs:80-156 | All processors of such a job can be paid once more when it ends. |
| `JobRuns.ExecutionMatchingSound` | pallets/marketplace/src/match_checker.rs:224-416 | Matching single executions, with the clean-up of earlier ones, keeps the invariant. |
| `JobRuns.IndexAgreement` | pallets/marketplace/src/match_checker.rs:157-180 | In every reachable state a processor has a match for the job exactly when the job has the processor, across matching, reports, deregistration and every clean-up. |
| `JobRuns.JobBudgetSuffices` | pallets/marketplace/src/match_checker.rs:671-724 | Over every run of a job matched as a whole: met reports are at most the next report, which is below the total, for every acknowledged match; and no payment or refund ever finds too little in the budget. |
| `JobRuns.ReportPays` | pallets/marketplace/src/functions.rs:52-80 | A report takes exactly the fee out of the budget on account of its processor, and counts. |
| `JobRuns.PaidForReports` | pallets/marketplace/src/functions.rs:52-80 | Over every run of a job matched as a whole, what was paid on account of a matched processor is the matcher's commission plus the fee for each report met. |
| `JobRuns.ReportIsPaid` | pallets/marketplace/src/functions.rs:52-125 | Over every such run, a report by an acknowledged processor during an execution it has not reported yet is accepted and paid. |
| `JobRuns.AcknowledgePays` | pallets/marketplace/src/match_checker.rs:701-724 | The first acknowledgment pays the matcher its percentage of what the price saves, rounded down, or nothing if there is no matcher. |
| `JobRuns.EndPays` | pallets/marketplace/src/hooks.rs:80-156 | The end of an assigned job pays its fee for each acknowledged match of the whole job or of the next execution and returns the rest; any other job's budget is all returned. |
| `JobRuns.NextIndexExact` | pallets/acurast/common/src/types.rs:374-383 | The next execution is the first that has not begun. |
| `JobRuns.FundsConserved` | pallets/marketplace/src/lib.rs:974-1001 | Over every run, of jobs matched by execution too, all that was ever locked is in the budget, or was paid out or returned. |
| `JobRules.MatchedWhen` | pallets/marketplace/src/match_checker.rs:29-197 | An open job is matched if and only if it has not begun and as many plans as slots fit: admissible, within the reward, each for another processor; and gets exactly their matches. |
| `JobRules.RegisteredWhen` | pallets/marketplace/src/hooks.rs:10-74 | A job is registered if and only if its schedule, slots, reward and instant match are as required and it is new or open; its whole reward is then in the budget. |
| `JobRules.AcknowledgedWhen` | pallets/marketplace/src/match_checker.rs:685-760 | A match is acknowledged before it begins, and once with effect only. |
| `JobRules.AcknowledgedCounts` | pallets/marketplace/src/match_checker.rs:726-846 | The first acknowledgment is counted in the status of the job or of the execution, and the report expected is the first, or the execution's, or one that can still be made. |
| `JobRules.AcknowledgmentAccepted` | pallets/marketplace/src/match_checker.rs:685-724 | Over every run of a job matched as a whole, a match can be acknowledged if and only if it has not begun. |
| `JobRules.ReportedWhen` | pallets/marketplace/src/functions.rs:82-125 | A report is for the execution expected if it can be, or else for the current one, and is refused if the expected one is still to come or both are past their tolerance. |
| `JobRules.ToleratedReport` | pallets/marketplace/src/functions.rs:82-125 | A report on the execution expected is accepted for it until the tolerance after its end. |
| `JobRules.ReportLeaves` | pallets/marketplace/src/functions.rs:82-125 | After a report the next execution is expected, and after the last one the match is gone from both maps. |
| `JobRules.EndsWhen` | pallets/marketplace/src/hooks.rs:80-156 | A job ends if and only if it exists and, once assigned, the fees due are in its budget; what is then left in storage, by its status. |
| `JobRules.CleanedWhen` | pallets/marketplace/src/functions.rs:218-236 | A match of the whole job is removed if and only if it has begun without acknowledgment or ended. |
| `JobRules.CleanedOneWhen` | pallets/marketplace/src/functions.rs:218-236 | The same for a match of one execution. |
| `JobRules.ExecutionMatchedWhen` | pallets/marketplace/src/match_checker.rs:224-416 | An execution not matched yet is matched if and only if it begins shortly, and as many plans as slots fit: admissible, within the reward, each for another processor not matched for it. |
| `JobRules.ExecutionMatched` | pallets/marketplace/src/match_checker.rs:224-416 | Its matches are then exactly the plans', with one execution more to report; matches at least two executions back are gone and all others kept. |
| `JobRules.CleanedOthers` | pallets/marketplace/src/functions.rs:218-236 | Cleaning up for one processor keeps the matches of all others, and removes the one of a job that is gone. |
| `JobRules.ExpiredWhen` | pallets/marketplace/src/lib.rs:902-919 | A job has expired if and only if the tolerance after every execution is over, with the longest start delay allowed. |
| `JobRules.CleanUpRule` | pallets/marketplace/src/lib.rs:902-919 | Exactly a job that is gone or has expired loses all its matches, or its matcher, and nothing else changes. |
| `JobRules.CleanUpSomeRule` | pallets/marketplace/src/lib.rs:664-682 | Listed matches of a job that is gone are removed, of no other. |
| `JobExample.JobFromBeginningToEnd` | pallets/marketplace/src/hooks.rs:10-156 | A run of a job of 20 from registration to end: 6 for the matcher, 4 for a report, 4 at the end, 6 returned. |
| `JobRules.ExecutionMatchedOnce` | pallets/marketplace/src/match_checker.rs:224-260 | An execution that has been matched is skipped. |
| `JobRules.ReportsWithinTotal` | pallets/marketplace/src/functions.rs:52-80 | In every reachable state, of jobs matched by execution too, no match has met more reports than it is for, and one not acknowledged yet can still be reported on. |
| `Marketplace.Market.Settle` | pallets/marketplace/src/hooks.rs:80-142 | What ending a job does by its status, leaving exactly the budget to be returned. |
| `Marketplace.Market.constructor` | pallets/marketplace/src/hooks.rs:10-74 | No job yet. |
| `Marketplace.Market.RegisterHook` | pallets/marketplace/src/hooks.rs:10-74 | Registers, matches and locks, or changes nothing, also when the reward cannot be locked. |
| `Marketplace.Market.ProcessMatching` | pallets/marketplace/src/match_checker.rs:29-197 | Fills all slots of an open job, or changes nothing. |
| `Marketplace.Market.ProcessAcknowledgeMatch` | pallets/marketplace/src/match_checker.rs:685-846 | Acknowledges, once with effect on status, next report and the matcher's fee. |
| `Marketplace.Market.DoReport` | pallets/marketplace/src/functions.rs:52-174 | Counts, dates and pays a report; the last one ends the match in both maps. |
| `Marketplace.Market.DeregisterHook` | pallets/marketplace/src/hooks.rs:80-156 | Pays, refunds and clears the job, or changes nothing; of the statuses of executions it clears no more than the hook's limit. |
| `Marketplace.Market.PayAtEnd` | pallets/marketplace/src/hooks.rs:88-142 | Succeeds exactly when the payouts together are in the budget, in whatever order processors are drained. |
| `Marketplace.Market.CleanupAssignment` | pallets/marketplace/src/functions.rs:218-236 | Removes a match of no more use from both maps. |
| `Marketplace.Market.CleanupStorage` | pallets/marketplace/src/lib.rs:664-682 | Removes up to a number of matches of a job that is gone, all of them if there are fewer. |
| `Marketplace.Market.CleanupJobAssignments` | pallets/marketplace/src/lib.rs:902-919 | Removes all matches of a job that has expired or is gone. |
| `Marketplace.Market.CleanupPreviousExecutionMatches` | pallets/marketplace/src/match_checker.rs:199-222 | Removes exactly the matches of executions at least two before. |
| `Marketplace.Market.ProcessExecutionMatching` | pallets/marketplace/src/match_checker.rs:224-416 | Fills the slots of one execution, or changes nothing. |
| `KeyIds.MoveSound` | pallets/marketplace/src/lib.rs:955-970 | Moving a key id leaves it with one deployment. |
| `KeyIds.DeploySound` | pallets/marketplace/src/lib.rs:711-806 | Deploying, with a fresh or a reused key, keeps the invariant. |
| `KeyIds.EditSound` | pallets/marketplace/src/lib.rs:811-848 | So does editing a script. |
| `KeyIds.KeyBelongsToOne` | pallets/marketplace/src/lib.rs:711-848 | In every reachable state a key id belongs to at most one deployment and stays with the owner it was made for. |
| `KeyIds.FreshKey` | pallets/marketplace/src/lib.rs:711-806 | A mutable deployment without reuse gets a key id no deployment and no job has had. |
| `KeyIds.ReuseTakesOver` | pallets/marketplace/src/lib.rs:711-806 | Reuse takes the key id from the original's deployment, which is left without, to the new one, and touches no other. |
| `KeyIds.ReuseKeepsKeyWhen` | pallets/marketplace/src/lib.rs:711-806 | The new job gets the original's own key id if and only if the original's deployment still has it. |
| `KeyIds.KeyContinues` | pallets/marketplace/src/lib.rs:711-806 | Over every run, a job reused later passes on its own key id, if nothing of the same owner and script is deployed, edited or reused in between. |
| `KeyIds.SecondDeploymentReplacesKey` | pallets/marketplace/src/lib.rs:711-806 | A run in which the same script is deployed twice, and reusing the first job gives the second one's key id. |
| `KeyIds.EditMovesKey` | pallets/marketplace/src/lib.rs:811-848 | Editing a script moves the key id to the new deployment and keeps the job's. |
| `KeyIds.ReusableWhen` | pallets/marketplace/src/lib.rs:711-806 | Keys are reused if and only if the original is the owner's, mutable and has keys, and the owner is its editor or changes neither script nor editor. |
| `KeyIds.ContinuesWhen` | pallets/marketplace/src/lib.rs:711-806 | An immutable job continues any but a mutable one and one of another script, and gets no keys. |
| `KeyIds.EditorOf` | pallets/marketplace/src/lib.rs:711-806 | The editor is the one named, or the original's, or the owner. |
| `KeyIds.EditableWhen` | pallets/marketplace/src/lib.rs:811-848 | A script is edited if and only if by the editor of a stored job whose deployment has a key id. |
| `KeyIds.TransferableWhen` | pallets/marketplace/src/lib.rs:853-880 | Only the editor hands over or gives up editing, of that job alone. |
| `KeyIds.EditorDecides` | pallets/marketplace/src/lib.rs:711-880 | Over every run a mutable job's editor and script stay until its editor acts on it or it ends. |
| `KeyIds.DeregisterClears` | pallets/marketplace/src/hooks.rs:80-86 | A job that ends has no key id any more, and its deployment keeps it. |
| `KeyIds.KeyImmutable` | pallets/marketplace/src/lib.rs:711-848 | Over every run a job's key id never changes while the job is registered. |
| `KeyIds.Deployments.TransferKeyId` | pallets/marketplace/src/lib.rs:955-970 | Moves the key id, or fails exactly when there is none. |
| `KeyIds.Deployments.Deploy` | pallets/marketplace/src/lib.rs:711-806 | Succeeds exactly under the stated guards, or changes nothing. |
| `KeyIds.Deployments.EditScript` | pallets/marketplace/src/lib.rs:811-848 | Only the editor of a stored job changes its script; the key id moves along. |
| `Quorums.CheckSignatures` | pallets/hyperdrive-ibc/src/lib.rs:417-492 | Accepts if and only if enough signatures are given, the first of every active oracle verifies, and enough distinct oracles are active; says which of the three failed. |
| `Quorums.QuorumVouches` | pallets/hyperdrive-ibc/src/lib.rs:417-492 | Acceptance means that many distinct, registered and active oracles each signed this content. |
| `Quorums.OthersIgnored` | pallets/hyperdrive-ibc/src/lib.rs:417-492 | More signatures of unknown, inactive or repeated keys change nothing. |
| `BridgeBooks.ReleaseNeverFails` | pallets/hyperdrive-ibc/src/lib.rs:530-544 | The fee of a stored message can always be released. |
| `BridgeBooks.SentFacts` | pallets/hyperdrive-ibc/src/lib.rs:506-579 | Sending keeps what is held equal to the fees stored, and moves exactly the old and the new fee. |
| `BridgeBooks.FeePaidFacts` | pallets/hyperdrive-token/src/lib.rs:463-504 | The fee vault passes on what it gets; nobody's balance but the source's changes. |
| `BridgeSteps.RemoveGood` | pallets/hyperdrive-ibc/src/lib.rs:299-323 | A removed message's fee is its payer's again, in full. |
| `BridgeSteps.TransferGood` | pallets/hyperdrive-token/src/lib.rs:271-284 | A new transfer costs its source exactly amount and fee, and keeps the invariant. |
| `BridgeSteps.RetryGood` | pallets/hyperdrive-token/src/lib.rs:292-315 | A retry changes no record and no balance but the source's, which pays the fee and gets back the fee it had paid for the replaced message. |
| `BridgeSteps.EnableGood` | pallets/hyperdrive-token/src/lib.rs:511-571 | An enabling message replaces none and costs exactly the fee. |
| `BridgeSteps.CreditGood` | pallets/hyperdrive-token/src/lib.rs:577-620 | A credit of a new nonce keeps the invariant, also when its destination is a vault. |
| `BridgeSteps.ReceiveGood` | pallets/hyperdrive-ibc/src/lib.rs:328-382 | Receiving a message keeps the invariant, whether processing it succeeds or its error is swallowed. |
| `BridgeSteps.CreditEffect` | pallets/hyperdrive-token/src/lib.rs:577-620 | A transfer takes effect if and only if it is native, for an account here, new and in the vault; then exactly its amount moves from the vault to its destination. |
| `BridgeSteps.ConfirmEffect` | pallets/hyperdrive-ibc/src/lib.rs:252-295 | A confirmed delivery moves exactly the fee, from what is held of the payer to the relayer. |
| `BridgeRuns.CreditFromMessage` | pallets/hyperdrive-token/src/lib.rs:577-657 | Over every run, each credit was made by a call that received, with a quorum, a message from the configured contract with that nonce, amount and destination, and moved just that. |
| `BridgeRules.SentWhen` | pallets/hyperdrive-ibc/src/lib.rs:506-579 | A message is stored if and only if fee, time to live and chain are as required, it replaces none still alive, and the payer can afford it with the fee of the replaced one; it is stored as given until its time to live. |
| `BridgeRules.ConfirmedWhen` | pallets/hyperdrive-ibc/src/lib.rs:252-295 | A delivery is confirmed if and only if the message is alive and a quorum signed it and the relayer. |
| `BridgeRules.RemovedWhen` | pallets/hyperdrive-ibc/src/lib.rs:299-323 | A message is removed if and only if it has expired, never while its delivery can be confirmed. |
| `BridgeRules.TestSentWhen` | pallets/hyperdrive-ibc/src/lib.rs:223-247 | When a test message is sent, and what it says. |
| `BridgeRules.TransferredWhen` | pallets/hyperdrive-token/src/lib.rs:420-509 | A transfer goes through if and only if enabled, large enough, for Ethereum, and its source can afford amount and fee; its message orders exactly that transfer. |
| `BridgeRules.RetriedWhen` | pallets/hyperdrive-token/src/lib.rs:292-315 | A transfer is retried if and only if by its source, for a fee, when its message is gone or has expired. |
| `BridgeRules.EnabledWhen` | pallets/hyperdrive-token/src/lib.rs:511-571 | When an enabling message is sent, and what it says. |
| `BridgeRules.ReceivedWhen` | pallets/hyperdrive-ibc/src/lib.rs:328-382 | A message is stored if and only if it is for this chain, new and signed by a quorum. |
| `BridgeRules.CreditMade` | pallets/hyperdrive-token/src/lib.rs:577-657 | A stored message that orders a new credit the vault can pay leads to that credit. |
| `BridgeRules.CleanedWhen` | pallets/hyperdrive-ibc/src/lib.rs:387-413 | Exactly the listed messages older than the incoming time to live are removed. |
| `BridgeRules.LastUpdateCounts` | pallets/hyperdrive-ibc/src/lib.rs:187-218 | The last update of an oracle's key counts. |
| `BridgeRules.OthersNotUpdated` | pallets/hyperdrive-ibc/src/lib.rs:187-218 | Keys not mentioned stay as they are. |
| `BridgeExample.ThereAndBack` | pallets/hyperdrive-token/src/lib.rs:271-284 | A run in which 60 are sent to Ethereum and 40 ordered back: 20 stay in the vault. |
| `BridgeRuns.VaultBacked` | pallets/hyperdrive-token/src/lib.rs:271-315 | Over every run the vault is its initial balance plus all recorded outgoing amounts minus all credits. |
| `BridgeRuns.FeesConserved` | pallets/hyperdrive-ibc/src/lib.rs:252-323 | Over every run the hold of each account is the sum of its stored messages' fees, the fee vault's free balance changes only by fees of removed messages and credits to it, and the sum of all balances is constant. |
| `BridgeRuns.NoncesContiguous` | pallets/hyperdrive-token/src/lib.rs:433-459 | Over every run the recorded transfers are exactly the nonces below the next one, and both lookups hold exactly the stored messages. |
| `BridgeRuns.TransferCarried` | pallets/hyperdrive-token/src/lib.rs:420-509 | A stored transfer message carries the recorded amount and destination and was paid by its source, however often it was retried. |
| `BridgeRuns.HistoryKept` | pallets/hyperdrive-token/src/lib.rs:271-315 | Records of transfers never change, and credits are never taken back. |
| `BridgeRuns.CreditOnce` | pallets/hyperdrive-token/src/lib.rs:577-620 | No two calls of a run credit the same transfer, whatever is cleaned up and received again in between. |
| `BridgeRuns.AcceptedWithQuorum` | pallets/hyperdrive-ibc/src/lib.rs:345-369 | Every stored incoming message was stored by a call of the run that had a quorum at that time. |
| `BridgeRuns.IncomingVouched` | pallets/hyperdrive-ibc/src/lib.rs:345-369 | That many distinct oracles, each registered and in its window then, signed that very message. |
| `Hyperdrive.Pallets.constructor` | pallets/hyperdrive-ibc/src/lib.rs:187-218 | The genesis state. |
| `Hyperdrive.Pallets.UpdateOracles` | pallets/hyperdrive-ibc/src/lib.rs:187-218 | Applies the updates in order. |
| `Hyperdrive.Pallets.DoSendMessage` | pallets/hyperdrive-ibc/src/lib.rs:506-579 | Stores and holds, replacing an expired message only. |
| `Hyperdrive.Pallets.SendTestMessage` | pallets/hyperdrive-ibc/src/lib.rs:223-247 | Sends under a fresh nonce, or changes nothing. |
| `Hyperdrive.Pallets.ConfirmMessageDelivery` | pallets/hyperdrive-ibc/src/lib.rs:252-295 | Pays the fee to the relayer the oracles confirmed, and clears the message, or changes nothing. |
| `Hyperdrive.Pallets.RemoveMessage` | pallets/hyperdrive-ibc/src/lib.rs:299-323 | Returns the fee of an expired message and clears it, or changes nothing. |
| `Hyperdrive.Pallets.ReceiveMessage` | pallets/hyperdrive-ibc/src/lib.rs:328-382 | Stores a message with a quorum once; a failed processing is rolled back, the message stays stored. |
| `Hyperdrive.Pallets.CleanIncoming` | pallets/hyperdrive-ibc/src/lib.rs:387-413 | Removes exactly the expired ones of the listed messages. |
| `Hyperdrive.Pallets.PayFeeAndSend` | pallets/hyperdrive-token/src/lib.rs:463-504 | Fee, message and refund in order. |
| `Hyperdrive.Pallets.DoTransferNative` | pallets/hyperdrive-token/src/lib.rs:420-509 | A new transfer locks the amount and takes the next nonce, a retry neither. |
| `Hyperdrive.Pallets.TransferNative` | pallets/hyperdrive-token/src/lib.rs:271-284 | Sends and records a transfer, or changes nothing. |
| `Hyperdrive.Pallets.RetryTransferNative` | pallets/hyperdrive-token/src/lib.rs:292-315 | Only the source retries a recorded transfer. |
| `Hyperdrive.Pallets.EnableProxyChain` | pallets/hyperdrive-token/src/lib.rs:511-571 | Sends an enabling message paid by the pallet account, or changes nothing. |
| `Hyperdrive.Pallets.Execute` | pallets/hyperdrive-token/src/lib.rs:577-620 | Credits an unseen nonce to an account of this chain; all else is refused. |
| `Hyperdrive.Pallets.Process` | pallets/hyperdrive-token/src/lib.rs:624-657 | Executes messages of the configured contract only. |

## Left out

- MetricRuns.MetricRewardsBounded: one way only, because after a pool was created late or a past ratio raised the reward is still not exceeded if some manager does not claim, or another pool is not claimed for; which calls are to blame is exact.
- StakingTheorems.NoEpochChargedTwice: is about the epochs charged, because amounts depend on the stake at the time.
- JobRuns.JobBudgetSuffices: is about jobs matched as a whole only, because the rewards of jobs matched by execution are bounded by configuration the code does not check.
- Hyperdrive.Pallets.ConfirmMessageDelivery: does not name the error, because callers see only that the state is unchanged; the same holds for the other operations that return a flag.
- Commission changes and the limit on overstaked commitments: flags of `Env`, their formulas are separate checks.
- `delegations_total_rewardable_amount`: kept up to date by the code but used in no calculation.
- `compound_delegator`, `compound_committer`: a withdrawal followed by adding to the delegation or the stake, both of which are modelled.
- `kickout_delegation`: nothing calls it.
- The slasher's part of a slash: what is burnt of a slashed stake and what the caller gets of it is up to the currency.
- Advertisements, prices, reputation, average rewards: they decide which matches are admissible and change nothing else modelled.
- Inflation, collator rewards, the validator and proxy contracts of hyperdrive, attestation and Ethereum encoding of actions.
- Solana transfers: every such message ends in an error.
