/**
  Conservation of the referral counters: whatever is created, released or reversed, each referrer's
  row agrees with the rewards themselves, and the floors at zero never take effect.
 */
module ReferralCounters {
  import opened Foundations
  import opened ReferralLedger

  /** One referrer's row is the sum of their rewards; without a row there is nothing to sum. */
  ghost predicate RowAgrees(rewards: seq<Reward>, stats: map<nat, Stats>, user: nat)
  {
    var row := if user in stats then stats[user] else Stats(0, 0.0, 0.0);
    && row.pending == Sum(rewards, PendingFor(user))
    && row.referrals as real == Sum(rewards, CountedFor(user))
    && row.granted == Sum(rewards, EarnedBy(user))
  }

  ghost predicate CountersAgree(rewards: seq<Reward>, stats: map<nat, Stats>)
  {
    forall user :: RowAgrees(rewards, stats, user)
  }

  predicate RewardsPositive(rewards: seq<Reward>)
  {
    forall i :: 0 <= i < |rewards| ==> rewards[i].amount > 0.0
  }

  /** How one changed reward moves the three sums. */
  lemma SumsAfterChange(rewards: seq<Reward>, i: nat, reward: Reward, user: nat)
    requires i < |rewards|
    ensures Sum(rewards[i := reward], PendingFor(user))
         == Sum(rewards, PendingFor(user)) - PendingFor(user)(rewards[i]) + PendingFor(user)(reward)
    ensures Sum(rewards[i := reward], CountedFor(user))
         == Sum(rewards, CountedFor(user)) - CountedFor(user)(rewards[i]) + CountedFor(user)(reward)
    ensures Sum(rewards[i := reward], EarnedBy(user))
         == Sum(rewards, EarnedBy(user)) - EarnedBy(user)(rewards[i]) + EarnedBy(user)(reward)
  {
    SumUpdate(rewards, i, reward, PendingFor(user));
    SumUpdate(rewards, i, reward, CountedFor(user));
    SumUpdate(rewards, i, reward, EarnedBy(user));
  }

  lemma SumsAfterAppend(rewards: seq<Reward>, reward: Reward, user: nat)
    ensures Sum(rewards + [reward], PendingFor(user)) == Sum(rewards, PendingFor(user)) + PendingFor(user)(reward)
    ensures Sum(rewards + [reward], CountedFor(user)) == Sum(rewards, CountedFor(user)) + CountedFor(user)(reward)
    ensures Sum(rewards + [reward], EarnedBy(user)) == Sum(rewards, EarnedBy(user)) + EarnedBy(user)(reward)
  {
    SumAppend(rewards, reward, PendingFor(user));
    SumAppend(rewards, reward, CountedFor(user));
    SumAppend(rewards, reward, EarnedBy(user));
  }

  /** A referrer with a pending reward has a row that covers it. */
  lemma RowCovers(rewards: seq<Reward>, stats: map<nat, Stats>, i: nat)
    requires CountersAgree(rewards, stats) && RewardsPositive(rewards)
    requires i < |rewards| && rewards[i].status.PendingReward?
    ensures rewards[i].referrer in stats
    ensures stats[rewards[i].referrer].pending >= rewards[i].amount && stats[rewards[i].referrer].referrals >= 1
  {
    var user := rewards[i].referrer;
    var without := rewards[i := rewards[i].(status := ReversedReward)];
    SumsAfterChange(rewards, i, without[i], user);
    SumNonNegative(without, PendingFor(user));
    SumNonNegative(without, CountedFor(user));
    assert RowAgrees(rewards, stats, user);
  }

  /** Reversing one pending reward keeps the agreement, with both floors idle. */
  lemma ReversalAgrees(rewards: seq<Reward>, stats: map<nat, Stats>, i: nat)
    requires CountersAgree(rewards, stats) && RewardsPositive(rewards)
    requires i < |rewards| && rewards[i].status.PendingReward?
    ensures CountersAgree(rewards[i := rewards[i].(status := ReversedReward)],
                          Decrement(stats, rewards[i].referrer, 1, rewards[i].amount))
  {
    RowCovers(rewards, stats, i);
    var after := rewards[i := rewards[i].(status := ReversedReward)];
    var stats' := Decrement(stats, rewards[i].referrer, 1, rewards[i].amount);
    forall user ensures RowAgrees(after, stats', user) {
      assert RowAgrees(rewards, stats, user);
      SumsAfterChange(rewards, i, after[i], user);
    }
  }

  /** Paying one pending reward out keeps the agreement. */
  lemma GrantAgrees(rewards: seq<Reward>, stats: map<nat, Stats>, i: nat)
    requires CountersAgree(rewards, stats) && RewardsPositive(rewards)
    requires i < |rewards| && rewards[i].status.PendingReward?
    ensures CountersAgree(rewards[i := rewards[i].(status := Released)],
                          GrantStats(stats, rewards[i].referrer, rewards[i].amount))
  {
    RowCovers(rewards, stats, i);
    var after := rewards[i := rewards[i].(status := Released)];
    var stats' := GrantStats(stats, rewards[i].referrer, rewards[i].amount);
    forall user ensures RowAgrees(after, stats', user) {
      assert RowAgrees(rewards, stats, user);
      SumsAfterChange(rewards, i, after[i], user);
    }
  }

  /** Creating one pending reward keeps the agreement, whether or not the referrer has a row yet. */
  lemma CreationAgrees(rewards: seq<Reward>, stats: map<nat, Stats>, reward: Reward)
    requires CountersAgree(rewards, stats) && reward.status.PendingReward?
    ensures CountersAgree(rewards + [reward], Increment(stats, reward.referrer, reward.amount))
  {
    forall user ensures RowAgrees(rewards + [reward], Increment(stats, reward.referrer, reward.amount), user) {
      assert RowAgrees(rewards, stats, user);
      SumsAfterAppend(rewards, reward, user);
    }
  }

  /** Reversing the rewards of any set of bookings: only their pending ones change, and the counters agree again. */
  lemma {:induction false} ReverseFromAgrees(rewards: seq<Reward>, stats: map<nat, Stats>, ids: set<nat>, i: nat)
    requires i <= |rewards| && CountersAgree(rewards, stats) && RewardsPositive(rewards)
    ensures var r := ReverseFrom(rewards, stats, ids, i);
      CountersAgree(r.0, r.1) && RewardsPositive(r.0)
    decreases |rewards| - i
  {
    if i < |rewards| {
      if rewards[i].booking in ids && rewards[i].status.PendingReward? {
        ReversalAgrees(rewards, stats, i);
        ReverseFromAgrees(rewards[i := rewards[i].(status := ReversedReward)],
                          Decrement(stats, rewards[i].referrer, 1, rewards[i].amount), ids, i + 1);
      } else {
        ReverseFromAgrees(rewards, stats, ids, i + 1);
      }
    }
  }

  /** What the reversal does to each reward. */
  lemma {:induction false} ReverseFromRewards(rewards: seq<Reward>, stats: map<nat, Stats>, ids: set<nat>, i: nat, k: nat)
    requires i <= |rewards| && k < |rewards|
    ensures ReverseFrom(rewards, stats, ids, i).0[k] ==
      if i <= k && rewards[k].booking in ids && rewards[k].status.PendingReward?
      then rewards[k].(status := ReversedReward) else rewards[k]
    decreases |rewards| - i
  {
    if i < |rewards| {
      if rewards[i].booking in ids && rewards[i].status.PendingReward? {
        ReverseFromRewards(rewards[i := rewards[i].(status := ReversedReward)],
                           Decrement(stats, rewards[i].referrer, 1, rewards[i].amount), ids, i + 1, k);
      } else {
        ReverseFromRewards(rewards, stats, ids, i + 1, k);
      }
    }
  }

  /** Reversals leave what has been paid out alone. */
  lemma ReversalKeepsEarned(rewards: seq<Reward>, stats: map<nat, Stats>, ids: set<nat>, user: nat)
    ensures Sum(ReverseFrom(rewards, stats, ids, 0).0, EarnedBy(user)) == Sum(rewards, EarnedBy(user))
  {
    var after := ReverseFrom(rewards, stats, ids, 0).0;
    forall k | 0 <= k < |rewards| ensures EarnedBy(user)(after[k]) == EarnedBy(user)(rewards[k]) {
      ReverseFromRewards(rewards, stats, ids, 0, k);
    }
    SumPointwise(after, rewards, EarnedBy(user));
  }

  // ----- grouping by referrer

  datatype Reversal = Reversal(count: nat, amount: real)

  /** Decrementing reward by reward. */
  function DecrementEach(stats: map<nat, Stats>, rewards: seq<Reward>): map<nat, Stats>
  {
    if rewards == [] then stats
    else
      var last := rewards[|rewards| - 1];
      Decrement(DecrementEach(stats, rewards[..|rewards| - 1]), last.referrer, 1, last.amount)
  }

  /** Decrementing once per referrer, by a grouped count and amount. */
  function DecrementGrouped(stats: map<nat, Stats>, groups: map<nat, Reversal>): map<nat, Stats>
  {
    map user | user in stats ::
      if user in groups then Decrement(stats, user, groups[user].count, groups[user].amount)[user] else stats[user]
  }

  /** The groups a loop over the rewards builds. */
  function Grouped(rewards: seq<Reward>): map<nat, Reversal>
  {
    if rewards == [] then map[]
    else
      var last := rewards[|rewards| - 1];
      var groups := Grouped(rewards[..|rewards| - 1]);
      var current := if last.referrer in groups then groups[last.referrer] else Reversal(0, 0.0);
      groups[last.referrer := Reversal(current.count + 1, current.amount + last.amount)]
  }

  lemma {:induction false} GroupedIsNonNegative(rewards: seq<Reward>, user: nat)
    requires RewardsPositive(rewards) && user in Grouped(rewards)
    ensures Grouped(rewards)[user].count >= 1 && Grouped(rewards)[user].amount > 0.0
  {
    var last := rewards[|rewards| - 1];
    if user in Grouped(rewards[..|rewards| - 1]) {
      GroupedIsNonNegative(rewards[..|rewards| - 1], user);
    }
  }

  /**
    Grouping loses nothing: one floored decrement per referrer leaves the counters exactly as one
    floored decrement per reward does, from any counters whatever.
   */
  lemma {:induction false} GroupingIsExact(stats: map<nat, Stats>, rewards: seq<Reward>)
    requires RewardsPositive(rewards)
    requires forall user :: user in stats ==> stats[user].pending >= 0.0 && stats[user].referrals >= 0
    ensures DecrementGrouped(stats, Grouped(rewards)) == DecrementEach(stats, rewards)
  {
    if rewards == [] {
      assert DecrementGrouped(stats, map[]) == stats;
    } else {
      var front := rewards[..|rewards| - 1];
      var last := rewards[|rewards| - 1];
      GroupingIsExact(stats, front);
      if last.referrer in Grouped(front) { GroupedIsNonNegative(front, last.referrer); }
      assert DecrementGrouped(stats, Grouped(rewards)) == Decrement(DecrementGrouped(stats, Grouped(front)), last.referrer, 1, last.amount);
    }
  }

  /** The first loop: a map from referrers to how many and how much. */
  method GroupByReferrer(rewards: seq<Reward>) returns (perReferrer: map<nat, Reversal>)
    ensures perReferrer == Grouped(rewards)
  {
    perReferrer := map[];
    for i := 0 to |rewards|
      invariant perReferrer == Grouped(rewards[..i])
    {
      assert rewards[..i + 1][..i] == rewards[..i];
      var reward := rewards[i];
      var current := if reward.referrer in perReferrer then perReferrer[reward.referrer] else Reversal(0, 0.0);
      perReferrer := perReferrer[reward.referrer := Reversal(current.count + 1, current.amount + reward.amount)];
    }
    assert rewards[..|rewards|] == rewards;
  }

  /** The second loop: one floored update per referrer that has a row. */
  method DecrementPerReferrer(stats: map<nat, Stats>, perReferrer: map<nat, Reversal>) returns (after: map<nat, Stats>)
    ensures after == DecrementGrouped(stats, perReferrer)
  {
    after := stats;
    var remaining := perReferrer.Keys;
    while remaining != {}
      invariant remaining <= perReferrer.Keys
      invariant after.Keys == stats.Keys
      invariant forall user :: user in stats ==>
        after[user] == if user in perReferrer && user !in remaining
          then Decrement(stats, user, perReferrer[user].count, perReferrer[user].amount)[user] else stats[user]
      decreases |remaining|
    {
      var referrer :| referrer in remaining;
      after := Decrement(after, referrer, perReferrer[referrer].count, perReferrer[referrer].amount);
      remaining := remaining - {referrer};
    }
  }

  /** `decrementReferralStatsForReversedRewards`: group the reversed rewards by referrer, then update each row once. */
  method DecrementReferralStatsForReversedRewards(stats: map<nat, Stats>, rewards: seq<Reward>) returns (after: map<nat, Stats>)
    requires RewardsPositive(rewards)
    requires forall user :: user in stats ==> stats[user].pending >= 0.0 && stats[user].referrals >= 0
    ensures after == DecrementEach(stats, rewards)
  {
    var perReferrer := GroupByReferrer(rewards);
    after := DecrementPerReferrer(stats, perReferrer);
    GroupingIsExact(stats, rewards);
  }
}
