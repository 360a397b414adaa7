/** Optional values: a field that may be null, a store lookup that may miss. */
module Wrappers {
  datatype Option<+T> = None | Some(value: T)
}

/**
 * The entities of the staking indexer: the decoded contract events it consumes,
 * the aggregate records it maintains (the singleton global state and one record
 * per user) and the write-once historical records, one per processed event.
 * Amounts, rates, timestamps and block numbers are unbounded integers, as the
 * host's BigInt is; addresses and transaction hashes are byte strings.
 */
module Entities {
  import opened Wrappers

  type Bytes = seq<bv8>
  type Addr = Bytes
  type TxHash = Bytes

  /** Where an event came from: its transaction, its position in the transaction's logs, its block. */
  datatype Provenance = Provenance(txHash: TxHash, logIndex: int, blockNumber: int, blockTimestamp: int)

  /** The six events of the staking contract, each with its parameters as decoded. */
  datatype Event =
    | StakingInitialized(meta: Provenance, stakingToken: Addr, initialRewardRate: int)
    | Staked(meta: Provenance, user: Addr, amount: int, timestamp: int,
             newTotalStaked: int, currentRewardRate: int)
    | Withdrawn(meta: Provenance, user: Addr, amount: int, timestamp: int,
                newTotalStaked: int, currentRewardRate: int, rewardsAccrued: int)
    | RewardsClaimed(meta: Provenance, user: Addr, amount: int, timestamp: int,
                     newPendingRewards: int, totalStaked: int)
    | RewardRateUpdated(meta: Provenance, oldRate: int, newRate: int, timestamp: int, totalStaked: int)
    | EmergencyWithdrawn(meta: Provenance, user: Addr, amount: int, penalty: int, timestamp: int,
                         newTotalStaked: int)

  const NoProvenance := Provenance([], 0, 0, 0)

  /** One event type per handler, as the generated bindings give each handler its own type. */
  type StakingInitializedEvent = e: Event | e.StakingInitialized? witness StakingInitialized(NoProvenance, [], 0)
  type StakedEvent = e: Event | e.Staked? witness Staked(NoProvenance, [], 0, 0, 0, 0)
  type WithdrawnEvent = e: Event | e.Withdrawn? witness Withdrawn(NoProvenance, [], 0, 0, 0, 0, 0)
  type RewardsClaimedEvent = e: Event | e.RewardsClaimed? witness RewardsClaimed(NoProvenance, [], 0, 0, 0, 0)
  type RewardRateUpdatedEvent = e: Event | e.RewardRateUpdated? witness RewardRateUpdated(NoProvenance, 0, 0, 0, 0)
  type EmergencyWithdrawnEvent = e: Event | e.EmergencyWithdrawn? witness EmergencyWithdrawn(NoProvenance, [], 0, 0, 0, 0)

  /** The singleton record stored under the id "global". */
  datatype Global = Global(
    totalStaked: int,
    currentRewardRate: int,
    lastUpdateTimestamp: int,
    totalUniqueStakers: int,
    cumulativeStaked: int,
    cumulativeRewardsDistributed: int,
    stakingToken: Option<Addr>)

  /** The per-user record; its id (the user's address) is the key it is stored under. */
  datatype User = User(
    stakedAmount: int,
    pendingRewards: int,
    lastStakeTimestamp: int,
    totalStaked: int,
    totalWithdrawn: int,
    totalRewardsClaimed: int,
    lastUpdateTimestamp: int)

  /** The global record getGlobalState creates when none is stored: every number zero, no token. */
  const ZeroGlobal := Global(0, 0, 0, 0, 0, 0, None)

  /** The user record getUser creates for an address not seen before. */
  const ZeroUser := User(0, 0, 0, 0, 0, 0, 0)

  /** The entity table a historical record lives in. */
  datatype RecordKind = StakeKind | WithdrawKind | ClaimKind | RewardRateUpdateKind | EmergencyWithdrawKind

  /**
   * The id of a historical record: the transaction hash joined with the log index,
   * within the table of its kind.
   */
  datatype RecordKey = RecordKey(kind: RecordKind, txHash: TxHash, logIndex: int)

  function KeyFor(kind: RecordKind, meta: Provenance): RecordKey {
    RecordKey(kind, meta.txHash, meta.logIndex)
  }

  /** The historical records, with the fields each handler copies from its event. */
  datatype Record =
    | Stake(user: Addr, amount: int, timestamp: int, totalStaked: int,
            blockNumber: int, transactionHash: TxHash)
    | Withdraw(user: Addr, amount: int, timestamp: int, totalStaked: int, rewardsAccrued: int,
               blockNumber: int, transactionHash: TxHash)
    | Claim(user: Addr, amount: int, timestamp: int, blockNumber: int, transactionHash: TxHash)
    | RewardRateUpdate(oldRate: int, newRate: int, timestamp: int, blockNumber: int, transactionHash: TxHash)
    | EmergencyWithdraw(user: Addr, amount: int, penalty: int, timestamp: int, totalStaked: int,
                        blockNumber: int, transactionHash: TxHash)
}
