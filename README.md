# Staking indexer aggregation, modelled in Dafny

The indexer reads the decoded events of a staking contract one at a time. It folds each one into a keyed entity store, which holds three kinds of entity:

- one `GlobalState` record, stored under the id `"global"`;
- one `User` record per staker address;
- one write-once historical record per event: `Stake`, `Withdraw`, `Claim`, `RewardRateUpdate` or `EmergencyWithdraw`. Its id is the transaction hash joined with the event's log index.

There are six handlers: staking initialized, staked, withdrawn, rewards claimed, reward rate updated, and emergency withdrawn. Each one loads what it needs, creating it when it is absent (`getGlobalState`, `getUser`). It adds event amounts to lifetime counters. It overwrites the global "current" fields (`totalStaked`, `currentRewardRate`) with the values the event reports. Then it saves.

Files:

- `entities.dfy`: modules `Wrappers` (Option) and `Entities`. These hold the events, the global and user records, the historical records and their ids, and the zeroed records the lazy loaders create.
- `aggregation.dfy`: module `Aggregation`, the specification. `State` is the store as a value. `Step` is what one event does, aggregate by aggregate. `Run` handles a sequence of events in order. `Inv` says the unique-staker count equals the number of stored users.
- `staking_contract.dfy`: module `StakingContract`, class `Indexer`. Its fields `globalOpt`, `users` and `records` are the entity store. It has one method per loader and per handler, and each method updates the fields one assignment at a time, as the mapping code does. Every handler is proved to produce `Step(old(State()), e)` and states its per-field effect outright.
- `properties.dfy`: module `Properties`. Lemmas over event streams: the unique-staker count, lifetime sums, last-write-wins for the reported fields, monotone counters, and write-once historical records.
- `scenarios.dfy`: clients of the class. Two `GetGlobalState` calls in a row, and the stake, withdraw and claim sequence from the unit tests, driven through the handlers.

Behaviour of the code that the model keeps as written:

- Withdrawing subtracts without a check, so a user's `stakedAmount` can go negative. It is an `int`.
- The code has no storage-error path and no malformed-event path, so the model has none.
- `getUser` does not save a new user record. The calling handler saves it. The global record is the only thing `getUser` saves.
- A `Claim` record does not carry the reported total, and a `RewardRateUpdate` record does not carry `totalStaked`. The records carry the fields the code copies.
- A historical-record save is an upsert. A repeated id overwrites the earlier record. So "write-once" is proved for streams whose ids are distinct.

## Model

| member | source | states |
|---|---|---|
| StakingContract.Indexer.GetGlobalState | src/staking-contract.ts:25-39 | Returns the stored global record and leaves the store unchanged. If no global record is stored, it creates one with every number zero and no staking token, saves it and returns it. Users and records are untouched. |
| StakingContract.Indexer.GetUser | src/staking-contract.ts:41-58 | Returns the stored user. If the address is new, it returns a zeroed user and raises the global `totalUniqueStakers` by exactly one, saving the global record (created if absent). A lookup of a known user leaves the global record untouched. It never saves the user record itself. |
| StakingContract.Indexer.HandleStakingInitialized | src/staking-contract.ts:60-66 | Equals `Step`. Sets the staking token, the reward rate and the block time on the global record, which is created if absent. No user and no historical record changes. The store invariant is kept. |
| StakingContract.Indexer.HandleStaked | src/staking-contract.ts:68-94 | Equals `Step`. The user's `stakedAmount` and `totalStaked` grow by `amount`, `lastStakeTimestamp` becomes the event's timestamp and `lastUpdateTimestamp` the block time. Global `totalStaked` and `currentRewardRate` become the reported values, `cumulativeStaked` grows by `amount`, other users are unchanged, and one `Stake` record is written under (tx hash, log index). |
| StakingContract.Indexer.HandleWithdrawn | src/staking-contract.ts:96-122 | Equals `Step`. `stakedAmount` drops by `amount`, `totalWithdrawn` grows by `amount` and `pendingRewards` grows by `rewardsAccrued`. Global `totalStaked` and `currentRewardRate` are overwritten and both cumulative counters are unchanged. One `Withdraw` record is written. |
| StakingContract.Indexer.HandleRewardsClaimed | src/staking-contract.ts:124-147 | Equals `Step`. `pendingRewards` becomes the reported `newPendingRewards` and `totalRewardsClaimed` grows by `amount`. Global `totalStaked` is overwritten, `cumulativeRewardsDistributed` grows by `amount` and `currentRewardRate` is unchanged. One `Claim` record is written. |
| StakingContract.Indexer.HandleRewardRateUpdated | src/staking-contract.ts:149-165 | Equals `Step`. Global `currentRewardRate` and `totalStaked` become the reported values. No user record changes. One `RewardRateUpdate` record is written. |
| StakingContract.Indexer.HandleEmergencyWithdrawn | src/staking-contract.ts:167-192 | Equals `Step`. The user's `stakedAmount` and `pendingRewards` are 0 afterwards, whatever they were, and `totalWithdrawn` grows by `amount`. On the global record only `totalStaked` and `lastUpdateTimestamp` change, apart from a first-sight unique-staker count. One `EmergencyWithdraw` record is written. |
| Scenarios.GetGlobalStateIdempotent | src/staking-contract.ts:25-39 | Two `GetGlobalState` calls in a row on any store return the same record, and that record is what the store then holds. It is the stored record if there was one, and the zeroed record with no token otherwise. Users and records are untouched. |
| Properties.StepCountsNewUser | src/staking-contract.ts:41-58 | One event raises `totalUniqueStakers` by 1 exactly when it names a user the store does not hold, and by 0 otherwise. The stored users afterwards are the earlier ones plus the event's user. |
| Properties.StepKeepsInv | src/staking-contract.ts:41-58 | Every event keeps `totalUniqueStakers` equal to the number of stored users. |
| Properties.RunKeepsInv | src/staking-contract.ts:41-58 | The same invariant holds after any stream of events. |
| Properties.RunUsers | src/staking-contract.ts:41-58 | After a stream, the stored users are exactly the earlier users plus every user the stream names. Each user-bearing handler saves its user. |
| Properties.UniqueStakersCount | src/staking-contract.ts:41-58 | From an empty store, `totalUniqueStakers` equals the number of distinct user addresses in the stream. |
| Properties.UsersSeenAreActors | src/staking-contract.ts:41-58 | The users seen in a stream are exactly the addresses that some event of the stream names. |
| Properties.UniqueStakersOrderFree | src/staking-contract.ts:41-58 | Two streams holding the same events, in any order, give the same `totalUniqueStakers` from an empty store. |
| Properties.UsersSeenBound | src/staking-contract.ts:41-58 | The number of distinct users is at most the number of user-bearing events, which is at most the number of events. |
| Properties.CumulativeStakedIsSum | src/staking-contract.ts:91 | After a stream, global `cumulativeStaked` is its earlier value plus the sum of all `Staked` amounts. |
| Properties.CumulativeRewardsIsSum | src/staking-contract.ts:144 | After a stream, `cumulativeRewardsDistributed` is its earlier value plus the sum of all `RewardsClaimed` amounts. |
| Properties.UserTotalsAreSums | src/staking-contract.ts:82-186 | For every address, each lifetime total is its earlier value plus the sum of that address's own event amounts. `totalStaked` sums its stakes. `totalWithdrawn` sums its withdrawals and emergency withdrawals. `totalRewardsClaimed` sums its claims. |
| Properties.TotalStakedLastWriteWins | src/staking-contract.ts:88-191 | Global `totalStaked` is the total carried by the latest event that reports one. It keeps its earlier value when no event reports a total. It is never a locally computed sum. |
| Properties.RewardRateLastWriteWins | src/staking-contract.ts:60-165 | `currentRewardRate` is the rate reported by the latest initialization, stake, withdrawal or rate-update event. Claims and emergency withdrawals do not change it. |
| Properties.StakingTokenLastWriteWins | src/staking-contract.ts:60-66 | `stakingToken` is the token of the latest initialization event, or its earlier value when there is none. |
| Properties.LastUpdateIsLatestBlock | src/staking-contract.ts:64-190 | After a non-empty stream the global record exists and its `lastUpdateTimestamp` is the last event's block time, set unconditionally. |
| Properties.UserlessEventsKeepUsers | src/staking-contract.ts:60-165 | Initialization and rate-update events leave every user record and `totalUniqueStakers` unchanged. |
| Properties.UniqueStakersNeverDecrease | src/staking-contract.ts:41-58 | From any store, `totalUniqueStakers` after a stream is at least its earlier value. |
| Properties.CountersMonotone | src/staking-contract.ts:54-184 | From any store and with non-negative event amounts, no counter ever decreases across a stream. This covers `cumulativeStaked`, `cumulativeRewardsDistributed`, `totalUniqueStakers`, the set of stored users, and every user's `totalStaked`, `totalWithdrawn` and `totalRewardsClaimed`. |
| Properties.RecordsWriteOnce | src/staking-contract.ts:69-180 | After a stream, the record ids are the earlier ids plus one per non-initialization event. A stored record whose id no event reuses is unchanged. |
| Properties.EachEventRecorded | src/staking-contract.ts:69-71 | When the stream's record ids are pairwise distinct, every event's historical record is stored, as written, at the end of the stream. |
| Properties.DistinctKeysDistinctRecords | src/staking-contract.ts:69-71 | When the ids are distinct and new to the store, the store gains exactly one record per recording event, so distinct (tx hash, log index) pairs give distinct records. |
| Scenarios.StakeWithdrawClaim | tests/staking-contract.test.ts:28-117 | Three events on an empty store. Stake(1000, total 5000, rate 100) gives user `stakedAmount` 1000, global `totalStaked` 5000, 1 unique staker and `cumulativeStaked` 1000. Withdraw(500, total 4500, accrued 50) gives `stakedAmount` 500, `totalWithdrawn` 500, `pendingRewards` 50 and total 4500. Claim(50, pending 0) gives `pendingRewards` 0, `totalRewardsClaimed` 50 and `cumulativeRewardsDistributed` 50. |

## Left out

- Record ids: the code builds an id by appending `logIndex.toI32()` to the transaction hash. The model uses the pair (hash, log index) together with the entity kind, because each kind has its own entity table. It does not model the 32-bit truncation of the log index or collisions caused by byte concatenation.
- Entity persistence (`load`/`save`) is modelled as in-memory maps with read-after-write visibility. The host store has no failure path in this code.
- Event dispatch is done by the host runtime, which calls the handlers in block order. It is not part of the code; `Run` stands for handling the events in order.
- The test helpers that build mock events (tests/staking-contract-utils.ts) are not part of this model. Neither are the generated schema and event bindings. The assertions the tests make on entity counts by name are also not modelled.
- The entities' `id` fields are not fields in the model. A user's id is its key in `users`, and a historical record's `user` field is the user's address, which is that user's id.
- StakingContract.Indexer.HandleStakingInitialized, HandleStaked, HandleWithdrawn, HandleRewardsClaimed, HandleRewardRateUpdated and HandleEmergencyWithdrawn promise the store invariant only for stores that already satisfy it (`old(Valid()) ==> Valid()`). The code accepts any store, and the model does the same: the handlers have no precondition.
- Properties.CountersMonotone: it assumes non-negative amounts. The contract's parameters are unsigned, but the event types here are unbounded integers.
