/**
 * Clients of the handlers: repeated loading of the global record, and the
 * stake, withdraw and claim sequence of the repository's unit tests, run
 * through the handlers on one store that starts empty.
 */
module Scenarios {
  import opened Wrappers
  import opened Entities
  import opened StakingContract

  /**
   * getGlobalState called twice in a row: the second call returns what the
   * first did and the store holds that record, whether or not one was stored.
   */
  method GetGlobalStateIdempotent(store: Indexer) returns (first: Global, second: Global)
    modifies store
    ensures first == second && store.globalOpt == Some(first)
    ensures old(store.globalOpt).Some? ==> first == old(store.globalOpt).value
    ensures old(store.globalOpt).None? ==> first == ZeroGlobal
    ensures store.users == old(store.users) && store.records == old(store.records)
  {
    first := store.GetGlobalState();
    second := store.GetGlobalState();
  }

  method StakeWithdrawClaim(u: Addr, m: Provenance)
    returns (afterStake: User, globalAfterStake: Global,
             afterWithdraw: User, globalAfterWithdraw: Global,
             afterClaim: User, globalAfterClaim: Global)
    ensures afterStake.stakedAmount == 1000 && afterStake.totalStaked == 1000
    ensures globalAfterStake.totalStaked == 5000 && globalAfterStake.currentRewardRate == 100
    ensures globalAfterStake.totalUniqueStakers == 1 && globalAfterStake.cumulativeStaked == 1000
    ensures afterWithdraw.stakedAmount == 500 && afterWithdraw.totalWithdrawn == 500
    ensures afterWithdraw.pendingRewards == 50
    ensures globalAfterWithdraw.totalStaked == 4500
    ensures afterClaim.pendingRewards == 0 && afterClaim.totalRewardsClaimed == 50
    ensures globalAfterClaim.cumulativeRewardsDistributed == 50
  {
    var store := new Indexer();

    store.HandleStaked(Staked(m, u, 1000, 1634567890, 5000, 100));
    afterStake, globalAfterStake := store.users[u], store.globalOpt.value;

    store.HandleWithdrawn(Withdrawn(m, u, 500, 1634567990, 4500, 100, 50));
    afterWithdraw, globalAfterWithdraw := store.users[u], store.globalOpt.value;

    store.HandleRewardsClaimed(RewardsClaimed(m, u, 50, 1634568090, 0, 4500));
    afterClaim, globalAfterClaim := store.users[u], store.globalOpt.value;
  }
}
