/**
 * What the aggregation guarantees over whole event streams: the unique-staker
 * count is the number of distinct users seen, lifetime counters are sums of
 * event amounts, reported totals are last-write-wins, counters never go down,
 * and historical records are one per event and never rewritten.
 */
module Properties {
  import opened Wrappers
  import opened Entities
  import opened Aggregation

  // ---------------------------------------------------------------------------
  // Reference definitions over event streams

  function Last(evs: seq<Event>): Event
    requires evs != []
  {
    evs[|evs| - 1]
  }

  function Init(evs: seq<Event>): seq<Event>
    requires evs != []
  {
    evs[..|evs| - 1]
  }

  /** The set of user addresses the events name. */
  function UsersSeen(evs: seq<Event>): set<Addr>
    decreases |evs|
  {
    if evs == [] then {}
    else UsersSeen(Init(evs)) + match Actor(Last(evs)) case Some(a) => {a} case None => {}
  }

  /** How many of the events name a user. */
  function UserEvents(evs: seq<Event>): nat
    decreases |evs|
  {
    if evs == [] then 0
    else UserEvents(Init(evs)) + if Actor(Last(evs)).Some? then 1 else 0
  }

  /** The sum of the amounts of all Staked events. */
  function StakedSum(evs: seq<Event>): int
    decreases |evs|
  {
    if evs == [] then 0
    else StakedSum(Init(evs)) + if Last(evs).Staked? then Last(evs).amount else 0
  }

  /** The sum of the amounts of all RewardsClaimed events. */
  function ClaimedSum(evs: seq<Event>): int
    decreases |evs|
  {
    if evs == [] then 0
    else ClaimedSum(Init(evs)) + if Last(evs).RewardsClaimed? then Last(evs).amount else 0
  }

  /** Amounts one user staked. */
  function UserStakedSum(evs: seq<Event>, a: Addr): int
    decreases |evs|
  {
    if evs == [] then 0
    else UserStakedSum(Init(evs), a) + if Last(evs).Staked? && Last(evs).user == a then Last(evs).amount else 0
  }

  /** Amounts one user took out, by ordinary or emergency withdrawal. */
  function UserWithdrawnSum(evs: seq<Event>, a: Addr): int
    decreases |evs|
  {
    if evs == [] then 0
    else
      var out := Last(evs).Withdrawn? || Last(evs).EmergencyWithdrawn?;
      UserWithdrawnSum(Init(evs), a) + if out && Last(evs).user == a then Last(evs).amount else 0
  }

  /** Rewards one user claimed. */
  function UserClaimedSum(evs: seq<Event>, a: Addr): int
    decreases |evs|
  {
    if evs == [] then 0
    else UserClaimedSum(Init(evs), a) + if Last(evs).RewardsClaimed? && Last(evs).user == a then Last(evs).amount else 0
  }

  /** The ledger-wide staked total an event reports, if it reports one. */
  function ReportedTotal(e: Event): Option<int> {
    match e
    case StakingInitialized(_, _, _) => None
    case Staked(_, _, _, _, newTotal, _) => Some(newTotal)
    case Withdrawn(_, _, _, _, newTotal, _, _) => Some(newTotal)
    case RewardsClaimed(_, _, _, _, _, total) => Some(total)
    case RewardRateUpdated(_, _, _, _, total) => Some(total)
    case EmergencyWithdrawn(_, _, _, _, _, newTotal) => Some(newTotal)
  }

  /** The reward rate an event reports, if it reports one. */
  function ReportedRate(e: Event): Option<int> {
    match e
    case StakingInitialized(_, _, rate) => Some(rate)
    case Staked(_, _, _, _, _, rate) => Some(rate)
    case Withdrawn(_, _, _, _, _, rate, _) => Some(rate)
    case RewardRateUpdated(_, _, newRate, _, _) => Some(newRate)
    case _ => None
  }

  /** The total reported by the latest event that reports one. */
  function LastReportedTotal(evs: seq<Event>): Option<int>
    decreases |evs|
  {
    if evs == [] then None
    else if ReportedTotal(Last(evs)).Some? then ReportedTotal(Last(evs))
    else LastReportedTotal(Init(evs))
  }

  /** The rate reported by the latest event that reports one. */
  function LastReportedRate(evs: seq<Event>): Option<int>
    decreases |evs|
  {
    if evs == [] then None
    else if ReportedRate(Last(evs)).Some? then ReportedRate(Last(evs))
    else LastReportedRate(Init(evs))
  }

  /** The token of the latest initialization event. */
  function LastToken(evs: seq<Event>): Option<Addr>
    decreases |evs|
  {
    if evs == [] then None
    else if Last(evs).StakingInitialized? then Some(Last(evs).stakingToken)
    else LastToken(Init(evs))
  }

  /** The id of the historical record an event writes, if any. */
  function WrittenKey(e: Event): Option<RecordKey> {
    match RecordOf(e)
    case Some((k, _)) => Some(k)
    case None => None
  }

  function KeysWritten(evs: seq<Event>): set<RecordKey>
    decreases |evs|
  {
    if evs == [] then {}
    else KeysWritten(Init(evs)) + match WrittenKey(Last(evs)) case Some(k) => {k} case None => {}
  }

  /** How many of the events write a historical record. */
  function RecordingEvents(evs: seq<Event>): nat
    decreases |evs|
  {
    if evs == [] then 0
    else RecordingEvents(Init(evs)) + if WrittenKey(Last(evs)).Some? then 1 else 0
  }

  /** No two events of the stream carry the same record id. */
  ghost predicate DistinctKeys(evs: seq<Event>) {
    forall i, j :: 0 <= i < j < |evs| && WrittenKey(evs[i]).Some? ==> WrittenKey(evs[i]) != WrittenKey(evs[j])
  }

  /** The amounts an event carries are what the contract's uint256 parameters allow. */
  predicate NonNegativeAmounts(e: Event) {
    match e
    case StakingInitialized(_, _, _) => true
    case RewardRateUpdated(_, _, _, _, _) => true
    case _ => e.amount >= 0
  }

  // ---------------------------------------------------------------------------
  // getUser and the unique-staker count

  /** One event raises the unique-staker count by one exactly when it names a user the store does not hold. */
  lemma StepCountsNewUser(s: State, e: Event)
    ensures GlobalOf(Step(s, e)).totalUniqueStakers ==
      GlobalOf(s).totalUniqueStakers + if Actor(e).Some? && Actor(e).value !in s.users then 1 else 0
    ensures Step(s, e).users.Keys == s.users.Keys + match Actor(e) case Some(a) => {a} case None => {}
  {
  }

  lemma StepKeepsInv(s: State, e: Event)
    requires Inv(s)
    ensures Inv(Step(s, e))
  {
  }

  lemma {:induction false} RunKeepsInv(s: State, evs: seq<Event>)
    requires Inv(s)
    ensures Inv(Run(s, evs))
    decreases |evs|
  {
    if evs != [] {
      RunKeepsInv(s, Init(evs));
      StepKeepsInv(Run(s, Init(evs)), Last(evs));
    }
  }

  /** The users stored after a stream are those stored before and those the stream names. */
  lemma {:induction false} RunUsers(s: State, evs: seq<Event>)
    ensures Run(s, evs).users.Keys == s.users.Keys + UsersSeen(evs)
    decreases |evs|
  {
    if evs != [] {
      RunUsers(s, Init(evs));
      StepCountsNewUser(Run(s, Init(evs)), Last(evs));
    }
  }

  /**
   * From the empty store, totalUniqueStakers is the number of distinct users
   * the events name, in whatever order they arrive.
   */
  lemma UniqueStakersCount(evs: seq<Event>)
    ensures GlobalOf(Run(Empty, evs)).totalUniqueStakers == |UsersSeen(evs)|
  {
    RunKeepsInv(Empty, evs);
    RunUsers(Empty, evs);
    assert Empty.users.Keys == {};
  }

  /** The users seen are exactly the users some event of the stream names. */
  lemma {:induction false} UsersSeenAreActors(evs: seq<Event>)
    ensures UsersSeen(evs) == set e | e in evs && Actor(e).Some? :: Actor(e).value
    decreases |evs|
  {
    if evs != [] {
      UsersSeenAreActors(Init(evs));
      assert evs == Init(evs) + [Last(evs)];
      assert forall e :: e in evs <==> e in Init(evs) || e == Last(evs);
    }
  }

  /** A user named by an event of one stream is named by the same event in any reordering of it. */
  lemma SeenInReordering(evs: seq<Event>, reordered: seq<Event>, a: Addr)
    requires multiset(evs) == multiset(reordered)
    requires a in UsersSeen(evs)
    ensures a in UsersSeen(reordered)
  {
    UsersSeenAreActors(evs);
    UsersSeenAreActors(reordered);
    var e :| e in evs && Actor(e).Some? && Actor(e).value == a;
    assert e in multiset(evs);
    assert e in reordered;
  }

  /**
   * The unique-staker count does not depend on the order of the events: two
   * streams holding the same events give the same count.
   */
  lemma UniqueStakersOrderFree(evs: seq<Event>, reordered: seq<Event>)
    requires multiset(evs) == multiset(reordered)
    ensures GlobalOf(Run(Empty, evs)).totalUniqueStakers == GlobalOf(Run(Empty, reordered)).totalUniqueStakers
  {
    UniqueStakersCount(evs);
    UniqueStakersCount(reordered);
    forall a | a in UsersSeen(evs) ensures a in UsersSeen(reordered) {
      SeenInReordering(evs, reordered, a);
    }
    forall a | a in UsersSeen(reordered) ensures a in UsersSeen(evs) {
      SeenInReordering(reordered, evs, a);
    }
    assert UsersSeen(evs) == UsersSeen(reordered);
  }

  /** There are never more unique stakers than user-bearing events, nor than events. */
  lemma {:induction false} UsersSeenBound(evs: seq<Event>)
    ensures |UsersSeen(evs)| <= UserEvents(evs) <= |evs|
    decreases |evs|
  {
    if evs != [] {
      UsersSeenBound(Init(evs));
      var extra := match Actor(Last(evs)) case Some(a) => {a} case None => {};
      assert |UsersSeen(Init(evs)) + extra| <= |UsersSeen(Init(evs))| + |extra|;
    }
  }

  // ---------------------------------------------------------------------------
  // Lifetime counters are sums of event amounts

  lemma {:induction false} CumulativeStakedIsSum(s: State, evs: seq<Event>)
    ensures GlobalOf(Run(s, evs)).cumulativeStaked == GlobalOf(s).cumulativeStaked + StakedSum(evs)
    decreases |evs|
  {
    if evs != [] {
      CumulativeStakedIsSum(s, Init(evs));
    }
  }

  lemma {:induction false} CumulativeRewardsIsSum(s: State, evs: seq<Event>)
    ensures GlobalOf(Run(s, evs)).cumulativeRewardsDistributed ==
      GlobalOf(s).cumulativeRewardsDistributed + ClaimedSum(evs)
    decreases |evs|
  {
    if evs != [] {
      CumulativeRewardsIsSum(s, Init(evs));
    }
  }

  /** A user's lifetime totals are the sums of that user's own event amounts. */
  lemma {:induction false} UserTotalsAreSums(s: State, evs: seq<Event>, a: Addr)
    ensures LoadUser(Run(s, evs).users, a).totalStaked == LoadUser(s.users, a).totalStaked + UserStakedSum(evs, a)
    ensures LoadUser(Run(s, evs).users, a).totalWithdrawn == LoadUser(s.users, a).totalWithdrawn + UserWithdrawnSum(evs, a)
    ensures LoadUser(Run(s, evs).users, a).totalRewardsClaimed ==
      LoadUser(s.users, a).totalRewardsClaimed + UserClaimedSum(evs, a)
    decreases |evs|
  {
    if evs != [] {
      UserTotalsAreSums(s, Init(evs), a);
    }
  }

  // ---------------------------------------------------------------------------
  // Reported current-state fields are last-write-wins

  /** The global totalStaked is the total the latest reporting event carried, never a local sum. */
  lemma {:induction false} TotalStakedLastWriteWins(s: State, evs: seq<Event>)
    ensures GlobalOf(Run(s, evs)).totalStaked ==
      match LastReportedTotal(evs) case Some(t) => t case None => GlobalOf(s).totalStaked
    decreases |evs|
  {
    if evs != [] {
      TotalStakedLastWriteWins(s, Init(evs));
    }
  }

  lemma {:induction false} RewardRateLastWriteWins(s: State, evs: seq<Event>)
    ensures GlobalOf(Run(s, evs)).currentRewardRate ==
      match LastReportedRate(evs) case Some(r) => r case None => GlobalOf(s).currentRewardRate
    decreases |evs|
  {
    if evs != [] {
      RewardRateLastWriteWins(s, Init(evs));
    }
  }

  lemma {:induction false} StakingTokenLastWriteWins(s: State, evs: seq<Event>)
    ensures GlobalOf(Run(s, evs)).stakingToken ==
      match LastToken(evs) case Some(t) => Some(t) case None => GlobalOf(s).stakingToken
    decreases |evs|
  {
    if evs != [] {
      StakingTokenLastWriteWins(s, Init(evs));
    }
  }

  /** Every event stamps the global record with its own block time, whatever else it changes. */
  lemma LastUpdateIsLatestBlock(s: State, evs: seq<Event>)
    requires evs != []
    ensures Run(s, evs).globalOpt.Some?
    ensures GlobalOf(Run(s, evs)).lastUpdateTimestamp == Last(evs).meta.blockTimestamp
  {
  }

  /** User-less events leave every user and the unique-staker count as they were. */
  lemma UserlessEventsKeepUsers(s: State, e: Event)
    requires e.StakingInitialized? || e.RewardRateUpdated?
    ensures Step(s, e).users == s.users
    ensures GlobalOf(Step(s, e)).totalUniqueStakers == GlobalOf(s).totalUniqueStakers
  {
  }

  // ---------------------------------------------------------------------------
  // Monotone counters

  lemma {:induction false} SumsNonNegative(evs: seq<Event>, a: Addr)
    requires forall i :: 0 <= i < |evs| ==> NonNegativeAmounts(evs[i])
    ensures StakedSum(evs) >= 0 && ClaimedSum(evs) >= 0
    ensures UserStakedSum(evs, a) >= 0 && UserWithdrawnSum(evs, a) >= 0 && UserClaimedSum(evs, a) >= 0
    decreases |evs|
  {
    if evs != [] {
      SumsNonNegative(Init(evs), a);
      assert NonNegativeAmounts(evs[|evs| - 1]);
    }
  }

  /**
   * With non-negative amounts, no counter the aggregation accumulates ever
   * goes down, and no user record disappears.
   */
  lemma {:induction false} CountersMonotone(s: State, evs: seq<Event>, a: Addr)
    requires forall i :: 0 <= i < |evs| ==> NonNegativeAmounts(evs[i])
    ensures GlobalOf(Run(s, evs)).cumulativeStaked >= GlobalOf(s).cumulativeStaked
    ensures GlobalOf(Run(s, evs)).cumulativeRewardsDistributed >= GlobalOf(s).cumulativeRewardsDistributed
    ensures GlobalOf(Run(s, evs)).totalUniqueStakers >= GlobalOf(s).totalUniqueStakers
    ensures s.users.Keys <= Run(s, evs).users.Keys
    ensures LoadUser(Run(s, evs).users, a).totalStaked >= LoadUser(s.users, a).totalStaked
    ensures LoadUser(Run(s, evs).users, a).totalWithdrawn >= LoadUser(s.users, a).totalWithdrawn
    ensures LoadUser(Run(s, evs).users, a).totalRewardsClaimed >= LoadUser(s.users, a).totalRewardsClaimed
  {
    SumsNonNegative(evs, a);
    CumulativeStakedIsSum(s, evs);
    CumulativeRewardsIsSum(s, evs);
    UserTotalsAreSums(s, evs, a);
    UniqueStakersNeverDecrease(s, evs);
    RunUsers(s, evs);
  }

  /** The unique-staker count only ever goes up, from any store. */
  lemma {:induction false} UniqueStakersNeverDecrease(s: State, evs: seq<Event>)
    ensures GlobalOf(Run(s, evs)).totalUniqueStakers >= GlobalOf(s).totalUniqueStakers
    decreases |evs|
  {
    if evs != [] {
      UniqueStakersNeverDecrease(s, Init(evs));
      StepCountsNewUser(Run(s, Init(evs)), Last(evs));
    }
  }

  // ---------------------------------------------------------------------------
  // Historical records

  /**
   * The record ids after a stream are the earlier ones plus one per event; a
   * record whose id no event reuses is never touched.
   */
  lemma {:induction false} RecordsWriteOnce(s: State, evs: seq<Event>)
    ensures Run(s, evs).records.Keys == s.records.Keys + KeysWritten(evs)
    ensures forall k :: k in s.records && k !in KeysWritten(evs) ==> Run(s, evs).records[k] == s.records[k]
    decreases |evs|
  {
    if evs != [] {
      RecordsWriteOnce(s, Init(evs));
    }
  }

  /** With distinct ids, every event's record survives the rest of the stream as written. */
  lemma {:induction false} EachEventRecorded(s: State, evs: seq<Event>, i: nat)
    requires DistinctKeys(evs)
    requires i < |evs| && RecordOf(evs[i]).Some?
    ensures RecordOf(evs[i]).value.0 in Run(s, evs).records
    ensures Run(s, evs).records[RecordOf(evs[i]).value.0] == RecordOf(evs[i]).value.1
    decreases |evs|
  {
    if i < |evs| - 1 {
      var pre := Init(evs);
      assert pre[i] == evs[i];
      assert DistinctKeys(pre) by {
        forall p, q | 0 <= p < q < |pre| && WrittenKey(pre[p]).Some?
          ensures WrittenKey(pre[p]) != WrittenKey(pre[q])
        {
          assert pre[p] == evs[p] && pre[q] == evs[q];
        }
      }
      EachEventRecorded(s, pre, i);
      assert WrittenKey(evs[i]) != WrittenKey(evs[|evs| - 1]);
    }
  }

  /** With distinct ids not already stored, the store gains exactly one record per recording event. */
  lemma {:induction false} DistinctKeysDistinctRecords(s: State, evs: seq<Event>)
    requires DistinctKeys(evs)
    requires forall i :: 0 <= i < |evs| && WrittenKey(evs[i]).Some? ==> WrittenKey(evs[i]).value !in s.records
    ensures |KeysWritten(evs)| == RecordingEvents(evs)
    ensures |Run(s, evs).records.Keys| == |s.records.Keys| + RecordingEvents(evs)
    decreases |evs|
  {
    if evs != [] {
      var pre := Init(evs);
      assert DistinctKeys(pre) by {
        forall p, q | 0 <= p < q < |pre| && WrittenKey(pre[p]).Some?
          ensures WrittenKey(pre[p]) != WrittenKey(pre[q])
        {
          assert pre[p] == evs[p] && pre[q] == evs[q];
        }
      }
      assert forall i :: 0 <= i < |pre| && WrittenKey(pre[i]).Some? ==> WrittenKey(pre[i]).value !in s.records by {
        forall i | 0 <= i < |pre| && WrittenKey(pre[i]).Some? ensures WrittenKey(pre[i]).value !in s.records {
          assert pre[i] == evs[i];
        }
      }
      DistinctKeysDistinctRecords(s, pre);
      RecordsWriteOnce(s, pre);
      RecordsWriteOnce(s, evs);
      match WrittenKey(Last(evs))
      case Some(k) =>
        KeyNotWrittenBefore(evs);
        assert k !in s.records;
        assert |KeysWritten(pre) + {k}| == |KeysWritten(pre)| + 1;
        assert |s.records.Keys + KeysWritten(evs)| == |s.records.Keys| + |KeysWritten(evs)|;
      case None =>
        assert s.records.Keys * KeysWritten(pre) == {};
    }
  }

  /** Under distinct ids, the last event's id is not among the ids written before it. */
  lemma KeyNotWrittenBefore(evs: seq<Event>)
    requires evs != [] && DistinctKeys(evs) && WrittenKey(Last(evs)).Some?
    ensures WrittenKey(Last(evs)).value !in KeysWritten(Init(evs))
  {
    var k := WrittenKey(Last(evs)).value;
    if k in KeysWritten(Init(evs)) {
      var j := WrittenAt(Init(evs), k);
      assert false;
    }
  }

  /** A written id comes from some event of the stream. */
  lemma {:induction false} WrittenAt(evs: seq<Event>, k: RecordKey) returns (j: nat)
    requires k in KeysWritten(evs)
    ensures j < |evs| && WrittenKey(evs[j]) == Some(k)
    decreases |evs|
  {
    if WrittenKey(Last(evs)) == Some(k) {
      j := |evs| - 1;
    } else {
      j := WrittenAt(Init(evs), k);
      assert Init(evs)[j] == evs[j];
    }
  }
}
