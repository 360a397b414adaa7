/**
 * The specification of the aggregation: the whole store as a value, and what
 * one event does to it, aggregate by aggregate. Current-state fields of the
 * global record (totalStaked, currentRewardRate) take the values the event
 * reports; lifetime counters add the event's amounts to what is stored.
 */
module Aggregation {
  import opened Wrappers
  import opened Entities

  /** Everything the handlers keep in the entity store. */
  datatype State = State(globalOpt: Option<Global>, users: map<Addr, User>, records: map<RecordKey, Record>)

  /** The store before any event. */
  const Empty := State(None, map[], map[])

  /** The global record getGlobalState hands out: the stored one, or a fresh zeroed one. */
  function LoadGlobal(globalOpt: Option<Global>): Global {
    match globalOpt
    case Some(g) => g
    case None => ZeroGlobal
  }

  /** The user record getUser hands out for an address: the stored one, or a fresh zeroed one. */
  function LoadUser(users: map<Addr, User>, a: Addr): User {
    if a in users then users[a] else ZeroUser
  }

  /** The user an event is about, if any. */
  function Actor(e: Event): Option<Addr> {
    match e
    case StakingInitialized(_, _, _) => None
    case RewardRateUpdated(_, _, _, _, _) => None
    case _ => Some(e.user)
  }

  /** The historical record an event writes, with its id; initialization writes none. */
  function RecordOf(e: Event): Option<(RecordKey, Record)> {
    match e
    case StakingInitialized(_, _, _) => None
    case Staked(m, user, amount, timestamp, newTotal, _) =>
      Some((KeyFor(StakeKind, m), Stake(user, amount, timestamp, newTotal, m.blockNumber, m.txHash)))
    case Withdrawn(m, user, amount, timestamp, newTotal, _, accrued) =>
      Some((KeyFor(WithdrawKind, m), Withdraw(user, amount, timestamp, newTotal, accrued, m.blockNumber, m.txHash)))
    case RewardsClaimed(m, user, amount, timestamp, _, _) =>
      Some((KeyFor(ClaimKind, m), Claim(user, amount, timestamp, m.blockNumber, m.txHash)))
    case RewardRateUpdated(m, oldRate, newRate, timestamp, _) =>
      Some((KeyFor(RewardRateUpdateKind, m), RewardRateUpdate(oldRate, newRate, timestamp, m.blockNumber, m.txHash)))
    case EmergencyWithdrawn(m, user, amount, penalty, timestamp, newTotal) =>
      Some((KeyFor(EmergencyWithdrawKind, m), EmergencyWithdraw(user, amount, penalty, timestamp, newTotal, m.blockNumber, m.txHash)))
  }

  /**
   * The global record before the event's own changes: loaded (or created), with
   * one more unique staker when the event names a user the store has never held.
   */
  function GlobalBefore(s: State, e: Event): Global {
    var g := LoadGlobal(s.globalOpt);
    match Actor(e)
    case Some(a) => if a in s.users then g else g.(totalUniqueStakers := g.totalUniqueStakers + 1)
    case None => g
  }

  /** What each event kind does to the global record. */
  function NextGlobal(s: State, e: Event): Global {
    var g := GlobalBefore(s, e);
    var now := e.meta.blockTimestamp;
    match e
    case StakingInitialized(_, token, rate) =>
      g.(stakingToken := Some(token), currentRewardRate := rate, lastUpdateTimestamp := now)
    case Staked(_, _, amount, _, newTotal, rate) =>
      g.(totalStaked := newTotal, currentRewardRate := rate,
         cumulativeStaked := g.cumulativeStaked + amount, lastUpdateTimestamp := now)
    case Withdrawn(_, _, _, _, newTotal, rate, _) =>
      g.(totalStaked := newTotal, currentRewardRate := rate, lastUpdateTimestamp := now)
    case RewardsClaimed(_, _, amount, _, _, total) =>
      g.(totalStaked := total,
         cumulativeRewardsDistributed := g.cumulativeRewardsDistributed + amount, lastUpdateTimestamp := now)
    case RewardRateUpdated(_, _, newRate, _, total) =>
      g.(currentRewardRate := newRate, totalStaked := total, lastUpdateTimestamp := now)
    case EmergencyWithdrawn(_, _, _, _, _, newTotal) =>
      g.(totalStaked := newTotal, lastUpdateTimestamp := now)
  }

  /** What a user-bearing event does to that user's record. */
  function NextUser(u: User, e: Event): User {
    var now := e.meta.blockTimestamp;
    match e
    case Staked(_, _, amount, timestamp, _, _) =>
      u.(stakedAmount := u.stakedAmount + amount, totalStaked := u.totalStaked + amount,
         lastStakeTimestamp := timestamp, lastUpdateTimestamp := now)
    case Withdrawn(_, _, amount, _, _, _, accrued) =>
      u.(stakedAmount := u.stakedAmount - amount, totalWithdrawn := u.totalWithdrawn + amount,
         pendingRewards := u.pendingRewards + accrued, lastUpdateTimestamp := now)
    case RewardsClaimed(_, _, amount, _, newPending, _) =>
      u.(pendingRewards := newPending, totalRewardsClaimed := u.totalRewardsClaimed + amount,
         lastUpdateTimestamp := now)
    case EmergencyWithdrawn(_, _, amount, _, _, _) =>
      u.(stakedAmount := 0, pendingRewards := 0, totalWithdrawn := u.totalWithdrawn + amount,
         lastUpdateTimestamp := now)
    case _ => u
  }

  function NextUsers(users: map<Addr, User>, e: Event): map<Addr, User> {
    match Actor(e)
    case Some(a) => users[a := NextUser(LoadUser(users, a), e)]
    case None => users
  }

  function NextRecords(records: map<RecordKey, Record>, e: Event): map<RecordKey, Record> {
    match RecordOf(e)
    case Some((k, r)) => records[k := r]
    case None => records
  }

  /** The store after one event has been handled. */
  function Step(s: State, e: Event): State {
    State(Some(NextGlobal(s, e)), NextUsers(s.users, e), NextRecords(s.records, e))
  }

  /** The store after a sequence of events, handled in order. */
  function Run(s: State, evs: seq<Event>): State
    decreases |evs|
  {
    if evs == [] then s else Step(Run(s, evs[..|evs| - 1]), evs[|evs| - 1])
  }

  /** The global record as the indexer reports it: an absent record reads as zero. */
  function GlobalOf(s: State): Global {
    LoadGlobal(s.globalOpt)
  }

  /** The class invariant of the store: one unique staker per stored user. */
  ghost predicate Inv(s: State) {
    GlobalOf(s).totalUniqueStakers == |s.users.Keys|
  }
}
