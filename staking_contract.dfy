/**
 * The event handlers of the staking indexer, written the way the mapping code
 * runs: load an entity (creating it when absent), update its fields one at a
 * time, save it. The entity store is the three maps of an Indexer; a save is a
 * map update and a load sees every earlier save.
 */
module StakingContract {
  import opened Wrappers
  import opened Entities
  import opened Aggregation

  class Indexer {
    var globalOpt: Option<Global>
    var users: map<Addr, User>
    var records: map<RecordKey, Record>

    /** The store as a value, for the specification in module Aggregation. */
    ghost function State(): State
      reads this
    {
      Aggregation.State(globalOpt, users, records)
    }

    ghost predicate Valid()
      reads this
    {
      Inv(State())
    }

    constructor ()
      ensures State() == Empty && Valid()
    {
      globalOpt := None;
      users := map[];
      records := map[];
    }

    /** Loads the singleton global record, creating and saving a zeroed one when there is none. */
    method GetGlobalState() returns (g: Global)
      modifies this
      ensures old(globalOpt).Some? ==> g == old(globalOpt).value && globalOpt == old(globalOpt)
      ensures old(globalOpt).None? ==> g == ZeroGlobal && globalOpt == Some(ZeroGlobal)
      ensures globalOpt == Some(g)
      ensures users == old(users) && records == old(records)
    {
      match globalOpt
      case Some(stored) =>
        g := stored;
      case None =>
        g := ZeroGlobal;
        globalOpt := Some(g);
    }

    /**
     * Loads a user's record, or makes a zeroed one when the address is new; only
     * then is the global unique-staker count raised by one and saved. The user
     * record itself is not saved here: the calling handler saves it.
     */
    method GetUser(address: Addr) returns (user: User)
      modifies this
      ensures address in old(users) ==> user == old(users)[address] && globalOpt == old(globalOpt)
      ensures address !in old(users) ==>
        && user == ZeroUser
        && globalOpt.Some?
        && globalOpt.value == LoadGlobal(old(globalOpt)).(totalUniqueStakers := LoadGlobal(old(globalOpt)).totalUniqueStakers + 1)
      ensures users == old(users) && records == old(records)
    {
      if address in users {
        user := users[address];
      } else {
        user := ZeroUser;
        var global := GetGlobalState();
        global := global.(totalUniqueStakers := global.totalUniqueStakers + 1);
        globalOpt := Some(global);
      }
    }

    method HandleStakingInitialized(e: StakingInitializedEvent)
      modifies this
      ensures State() == Step(old(State()), e)
      ensures old(Valid()) ==> Valid()
      ensures globalOpt == Some(LoadGlobal(old(globalOpt)).(
        stakingToken := Some(e.stakingToken),
        currentRewardRate := e.initialRewardRate,
        lastUpdateTimestamp := e.meta.blockTimestamp))
      ensures users == old(users) && records == old(records)
    {
      var global := GetGlobalState();
      global := global.(stakingToken := Some(e.stakingToken));
      global := global.(currentRewardRate := e.initialRewardRate);
      global := global.(lastUpdateTimestamp := e.meta.blockTimestamp);
      globalOpt := Some(global);
    }

    method HandleStaked(e: StakedEvent)
      modifies this
      ensures State() == Step(old(State()), e)
      ensures old(Valid()) ==> Valid()
      // the user
      ensures users == old(users)[e.user := users[e.user]]
      ensures var was := LoadUser(old(users), e.user);
        users[e.user] == was.(
          stakedAmount := was.stakedAmount + e.amount,
          totalStaked := was.totalStaked + e.amount,
          lastStakeTimestamp := e.timestamp,
          lastUpdateTimestamp := e.meta.blockTimestamp)
      // the global record: reported totals overwrite, the lifetime sum adds
      ensures var was := GlobalBefore(old(State()), e);
        globalOpt == Some(was.(
          totalStaked := e.newTotalStaked,
          currentRewardRate := e.currentRewardRate,
          cumulativeStaked := was.cumulativeStaked + e.amount,
          lastUpdateTimestamp := e.meta.blockTimestamp))
      // one new historical record, every other left alone
      ensures records == old(records)[KeyFor(StakeKind, e.meta) :=
        Stake(e.user, e.amount, e.timestamp, e.newTotalStaked, e.meta.blockNumber, e.meta.txHash)]
    {
      var user := GetUser(e.user);
      var stakeRecord := Stake(e.user, e.amount, e.timestamp, e.newTotalStaked, e.meta.blockNumber, e.meta.txHash);
      records := records[KeyFor(StakeKind, e.meta) := stakeRecord];

      user := user.(stakedAmount := user.stakedAmount + e.amount);
      user := user.(totalStaked := user.totalStaked + e.amount);
      user := user.(lastStakeTimestamp := e.timestamp);
      user := user.(lastUpdateTimestamp := e.meta.blockTimestamp);
      users := users[e.user := user];

      var global := GetGlobalState();
      global := global.(totalStaked := e.newTotalStaked);
      global := global.(currentRewardRate := e.currentRewardRate);
      global := global.(cumulativeStaked := global.cumulativeStaked + e.amount);
      global := global.(lastUpdateTimestamp := e.meta.blockTimestamp);
      globalOpt := Some(global);
    }

    method HandleWithdrawn(e: WithdrawnEvent)
      modifies this
      ensures State() == Step(old(State()), e)
      ensures old(Valid()) ==> Valid()
      ensures users == old(users)[e.user := users[e.user]]
      ensures var was := LoadUser(old(users), e.user);
        users[e.user] == was.(
          stakedAmount := was.stakedAmount - e.amount,
          totalWithdrawn := was.totalWithdrawn + e.amount,
          pendingRewards := was.pendingRewards + e.rewardsAccrued,
          lastUpdateTimestamp := e.meta.blockTimestamp)
      // cumulativeStaked and cumulativeRewardsDistributed are left as they were
      ensures var was := GlobalBefore(old(State()), e);
        globalOpt == Some(was.(
          totalStaked := e.newTotalStaked,
          currentRewardRate := e.currentRewardRate,
          lastUpdateTimestamp := e.meta.blockTimestamp))
      ensures records == old(records)[KeyFor(WithdrawKind, e.meta) :=
        Withdraw(e.user, e.amount, e.timestamp, e.newTotalStaked, e.rewardsAccrued, e.meta.blockNumber, e.meta.txHash)]
    {
      var user := GetUser(e.user);
      var withdrawRecord :=
        Withdraw(e.user, e.amount, e.timestamp, e.newTotalStaked, e.rewardsAccrued, e.meta.blockNumber, e.meta.txHash);
      records := records[KeyFor(WithdrawKind, e.meta) := withdrawRecord];

      user := user.(stakedAmount := user.stakedAmount - e.amount);
      user := user.(totalWithdrawn := user.totalWithdrawn + e.amount);
      user := user.(pendingRewards := user.pendingRewards + e.rewardsAccrued);
      user := user.(lastUpdateTimestamp := e.meta.blockTimestamp);
      users := users[e.user := user];

      var global := GetGlobalState();
      global := global.(totalStaked := e.newTotalStaked);
      global := global.(currentRewardRate := e.currentRewardRate);
      global := global.(lastUpdateTimestamp := e.meta.blockTimestamp);
      globalOpt := Some(global);
    }

    method HandleRewardsClaimed(e: RewardsClaimedEvent)
      modifies this
      ensures State() == Step(old(State()), e)
      ensures old(Valid()) ==> Valid()
      ensures users == old(users)[e.user := users[e.user]]
      ensures var was := LoadUser(old(users), e.user);
        users[e.user] == was.(
          pendingRewards := e.newPendingRewards,
          totalRewardsClaimed := was.totalRewardsClaimed + e.amount,
          lastUpdateTimestamp := e.meta.blockTimestamp)
      // currentRewardRate is left as it was
      ensures var was := GlobalBefore(old(State()), e);
        globalOpt == Some(was.(
          totalStaked := e.totalStaked,
          cumulativeRewardsDistributed := was.cumulativeRewardsDistributed + e.amount,
          lastUpdateTimestamp := e.meta.blockTimestamp))
      ensures records == old(records)[KeyFor(ClaimKind, e.meta) :=
        Claim(e.user, e.amount, e.timestamp, e.meta.blockNumber, e.meta.txHash)]
    {
      var user := GetUser(e.user);
      var claimRecord := Claim(e.user, e.amount, e.timestamp, e.meta.blockNumber, e.meta.txHash);
      records := records[KeyFor(ClaimKind, e.meta) := claimRecord];

      user := user.(pendingRewards := e.newPendingRewards);
      user := user.(totalRewardsClaimed := user.totalRewardsClaimed + e.amount);
      user := user.(lastUpdateTimestamp := e.meta.blockTimestamp);
      users := users[e.user := user];

      var global := GetGlobalState();
      global := global.(totalStaked := e.totalStaked);
      global := global.(cumulativeRewardsDistributed := global.cumulativeRewardsDistributed + e.amount);
      global := global.(lastUpdateTimestamp := e.meta.blockTimestamp);
      globalOpt := Some(global);
    }

    method HandleRewardRateUpdated(e: RewardRateUpdatedEvent)
      modifies this
      ensures State() == Step(old(State()), e)
      ensures old(Valid()) ==> Valid()
      ensures globalOpt == Some(LoadGlobal(old(globalOpt)).(
        currentRewardRate := e.newRate,
        totalStaked := e.totalStaked,
        lastUpdateTimestamp := e.meta.blockTimestamp))
      ensures users == old(users)
      ensures records == old(records)[KeyFor(RewardRateUpdateKind, e.meta) :=
        RewardRateUpdate(e.oldRate, e.newRate, e.timestamp, e.meta.blockNumber, e.meta.txHash)]
    {
      var rateUpdateRecord := RewardRateUpdate(e.oldRate, e.newRate, e.timestamp, e.meta.blockNumber, e.meta.txHash);
      records := records[KeyFor(RewardRateUpdateKind, e.meta) := rateUpdateRecord];

      var global := GetGlobalState();
      global := global.(currentRewardRate := e.newRate);
      global := global.(totalStaked := e.totalStaked);
      global := global.(lastUpdateTimestamp := e.meta.blockTimestamp);
      globalOpt := Some(global);
    }

    method HandleEmergencyWithdrawn(e: EmergencyWithdrawnEvent)
      modifies this
      ensures State() == Step(old(State()), e)
      ensures old(Valid()) ==> Valid()
      ensures users == old(users)[e.user := users[e.user]]
      // the stake and the pending rewards are cleared whatever they were
      ensures users[e.user].stakedAmount == 0 && users[e.user].pendingRewards == 0
      ensures var was := LoadUser(old(users), e.user);
        users[e.user] == was.(
          stakedAmount := 0,
          pendingRewards := 0,
          totalWithdrawn := was.totalWithdrawn + e.amount,
          lastUpdateTimestamp := e.meta.blockTimestamp)
      // only totalStaked and lastUpdateTimestamp change, besides a first-sight unique-staker count
      ensures var was := GlobalBefore(old(State()), e);
        globalOpt == Some(was.(totalStaked := e.newTotalStaked, lastUpdateTimestamp := e.meta.blockTimestamp))
      ensures records == old(records)[KeyFor(EmergencyWithdrawKind, e.meta) :=
        EmergencyWithdraw(e.user, e.amount, e.penalty, e.timestamp, e.newTotalStaked, e.meta.blockNumber, e.meta.txHash)]
    {
      var user := GetUser(e.user);
      var emergencyRecord :=
        EmergencyWithdraw(e.user, e.amount, e.penalty, e.timestamp, e.newTotalStaked, e.meta.blockNumber, e.meta.txHash);
      records := records[KeyFor(EmergencyWithdrawKind, e.meta) := emergencyRecord];

      user := user.(stakedAmount := 0);
      user := user.(pendingRewards := 0);
      user := user.(totalWithdrawn := user.totalWithdrawn + e.amount);
      user := user.(lastUpdateTimestamp := e.meta.blockTimestamp);
      users := users[e.user := user];

      var global := GetGlobalState();
      global := global.(totalStaked := e.newTotalStaked);
      global := global.(lastUpdateTimestamp := e.meta.blockTimestamp);
      globalOpt := Some(global);
    }
  }
}
