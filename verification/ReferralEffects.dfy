/**
  What the writers of the referral tables leave in them, column by column: which rows change, to
  what, and that everything else stays. Amounts and statuses are given outright.
 */
module ReferralEffects {
  import opened Foundations
  import opened BookingResponse
  import opened ReferralLedger
  import opened ReferralCounters
  import opened ReferralInvariants

  /** Exactly the pending rewards of these bookings are reversed; no amount, referrer or booking changes. */
  ghost predicate OnlyReverses(before: seq<Reward>, after: seq<Reward>, ids: set<nat>)
  {
    && |after| >= |before|
    && forall k :: 0 <= k < |before| ==>
      && after[k].referrer == before[k].referrer && after[k].booking == before[k].booking && after[k].amount == before[k].amount
      && after[k].status == (if before[k].booking in ids && before[k].status == PendingReward then ReversedReward else before[k].status)
  }

  /** All rows but one are as they were. */
  ghost predicate OnlyRow(before: seq<Booking>, after: seq<Booking>, b: nat)
  {
    |after| == |before| && forall i :: 0 <= i < |before| && i != b ==> after[i] == before[i]
  }

  lemma ReversalOnlyReverses(rewards: seq<Reward>, stats: map<nat, Stats>, ids: set<nat>)
    ensures OnlyReverses(rewards, ReverseFrom(rewards, stats, ids, 0).0, ids)
    ensures |ReverseFrom(rewards, stats, ids, 0).0| == |rewards|
  {
    forall k | 0 <= k < |rewards|
      ensures ReverseFrom(rewards, stats, ids, 0).0[k] ==
        if rewards[k].booking in ids && rewards[k].status.PendingReward? then rewards[k].(status := ReversedReward) else rewards[k]
    {
      ReverseFromRewards(rewards, stats, ids, 0, k);
    }
  }

  /** What a cancelled booking looks like. */
  lemma CancelledRowIs(b: Booking)
    ensures var c := CancelledRow(b);
      && c.status.Cancelled? && c.payment.RefundProcessing? && c.creditsUsed == 0.0 && c.creditsReserved == 0.0
      && c.user == b.user && c.referral == b.referral && c.referrer == b.referrer
  {}

  /** Cancellation: cancelled, its refund under way, its credits free again; no reward of it stays pending. */
  lemma CancelWrites(s: State, b: nat)
    requires Enabled(s, Cancel(b))
    ensures var t := Do(s, Cancel(b));
      && OnlyRow(s.bookings, t.bookings, b)
      && t.bookings[b].status.Cancelled? && t.bookings[b].payment.RefundProcessing?
      && t.bookings[b].creditsUsed == 0.0 && t.bookings[b].creditsReserved == 0.0
      && t.bookings[b].user == s.bookings[b].user && t.bookings[b].referral == s.bookings[b].referral
      && t.bookings[b].referrer == s.bookings[b].referrer
      && OnlyReverses(s.rewards, t.rewards, {b}) && |t.rewards| == |s.rewards| && t.used == s.used && t.txs == s.txs
  {
    ReversalOnlyReverses(s.rewards, s.stats, {b});
  }

  /** Expiry: cancelled and unpaid, its credits free; a reserved discount goes back, with its pending reward. */
  lemma ExpireWrites(s: State, b: nat)
    requires Enabled(s, Expire(b))
    ensures var t := Do(s, Expire(b));
      && OnlyRow(s.bookings, t.bookings, b)
      && t.bookings[b].status.Cancelled? && t.bookings[b].payment.Unpaid?
      && t.bookings[b].creditsUsed == 0.0 && t.bookings[b].creditsReserved == 0.0
      && t.bookings[b].user == s.bookings[b].user && t.used == s.used && t.txs == s.txs && |t.rewards| == |s.rewards|
      && (s.bookings[b].referral.Reserved? ==>
            t.bookings[b].referral.Reversed? && t.bookings[b].referrer.None? && OnlyReverses(s.rewards, t.rewards, {b}))
      && (!s.bookings[b].referral.Reserved? ==>
            t.bookings[b].referral == s.bookings[b].referral && t.bookings[b].referrer == s.bookings[b].referrer && t.rewards == s.rewards)
  {
    ReversalOnlyReverses(s.rewards, s.stats, {b});
  }

  /** Confirmation: confirmed and paid, credits and owner kept; a reserved discount is applied and its user's flag set. */
  lemma ConfirmWrites(s: State, t: nat)
    requires Inv(s) && Enabled(s, CommitConfirm(t))
    ensures var b := s.txs[t].booking; var v := Do(s, CommitConfirm(t));
      && OnlyRow(s.bookings, v.bookings, b)
      && v.bookings[b].status.Confirmed? && v.bookings[b].payment.Paid?
      && v.bookings[b].user == s.bookings[b].user && v.bookings[b].referrer == s.bookings[b].referrer
      && v.bookings[b].creditsUsed == s.bookings[b].creditsUsed && v.bookings[b].creditsReserved == s.bookings[b].creditsReserved
      && v.rewards == s.rewards && v.stats == s.stats && v.txs == s.txs - {t}
      && (if s.bookings[b].referral.Reserved?
          then v.bookings[b].referral.Applied? && s.bookings[b].user.Some? && v.used == s.used + {s.bookings[b].user.value}
          else v.bookings[b].referral == s.bookings[b].referral && v.used == s.used)
  {
    assert TxOk(s, s.txs[t]) && RowOk(s.bookings[s.txs[t].booking]);
  }

  /** Paying a reward out: that reward is released, its booking rewarded, its user's discount used for good. */
  lemma ReleaseRewardWrites(s: State, r: nat)
    requires Enabled(s, ReleaseReward(r))
    ensures var b := s.rewards[r].booking; var v := Do(s, ReleaseReward(r));
      && OnlyRow(s.bookings, v.bookings, b) && v.bookings[b].referral.Rewarded?
      && v.bookings[b].status == s.bookings[b].status && v.bookings[b].payment == s.bookings[b].payment
      && v.bookings[b].user == s.bookings[b].user && v.used == s.used + {s.bookings[b].user.value}
      && |v.rewards| == |s.rewards| && v.rewards[r].status.Released?
      && v.rewards[r].amount == s.rewards[r].amount && v.rewards[r].referrer == s.rewards[r].referrer
      && forall k :: 0 <= k < |s.rewards| && k != r ==> v.rewards[k] == s.rewards[k]
  {}

  /** A released reservation: nothing is left of the discount, and everything else stays. */
  lemma ReleasesWrite(s: State, ids: set<nat>)
    ensures var v := Releases(s, ids);
      && |v.bookings| == |s.bookings| && |v.rewards| == |s.rewards| && OnlyReverses(s.rewards, v.rewards, ids)
      && (forall b :: 0 <= b < |s.bookings| && b !in ids ==> v.bookings[b] == s.bookings[b])
      && (forall b :: 0 <= b < |s.bookings| && b in ids ==>
            v.bookings[b].referral.Reversed? && v.bookings[b].referrer.None?
            && v.bookings[b].user == s.bookings[b].user && v.bookings[b].status == s.bookings[b].status
            && v.bookings[b].payment == s.bookings[b].payment
            && v.bookings[b].creditsUsed == s.bookings[b].creditsUsed && v.bookings[b].creditsReserved == s.bookings[b].creditsReserved)
      && v.used == s.used && v.txs == s.txs
  {
    ReversalOnlyReverses(s.rewards, s.stats, ids);
  }

  /** A creation: its releases, and one new booking, pending and unpaid, with its discount and credits and at most one new reward. */
  lemma CreateWrites(s: State, t: nat, discount: Option<nat>, rewardAmount: Option<real>, credits: real)
    requires Enabled(s, CommitCreate(t, discount, rewardAmount, credits))
    ensures var v := Do(s, CommitCreate(t, discount, rewardAmount, credits)); var n := |s.bookings|;
      && |v.bookings| == n + 1 && v.used == s.used && v.txs == s.txs - {t}
      && (forall b :: 0 <= b < n && b !in s.txs[t].released ==> v.bookings[b] == s.bookings[b])
      && v.bookings[n].user == Some(s.txs[t].user) && v.bookings[n].status.Pending? && v.bookings[n].payment.Unpaid?
      && v.bookings[n].creditsUsed == credits && v.bookings[n].creditsReserved == credits
      && v.bookings[n].referrer == discount && v.bookings[n].referral == (if discount.Some? then Reserved else NoReferral)
      && OnlyReverses(s.rewards, v.rewards, s.txs[t].released)
      && (if rewardAmount.Some? then
            |v.rewards| == |s.rewards| + 1 && v.rewards[|s.rewards|] == Reward(discount.value, n, rewardAmount.value, PendingReward)
          else |v.rewards| == |s.rewards|)
  {
    ReleasesWrite(s, s.txs[t].released);
  }

  /** What counts as committed: the used credits of a paid booking, the reserved ones of an unpaid one that still stands. */
  lemma CommitsIs(b: Booking)
    ensures b.payment == Paid ==> b.Commits() == b.creditsUsed
    ensures b.payment == Unpaid && b.status != BookingStatus.Cancelled ==> b.Commits() == b.creditsReserved
    ensures b.payment == Unpaid && b.status == BookingStatus.Cancelled ==> b.Commits() == 0.0
    ensures b.payment != Paid && b.payment != Unpaid ==> b.Commits() == 0.0
  {}

  /** What bars a new discount, and what a new attempt may release. */
  lemma ClaimsAndStaleAre(b: Booking)
    ensures b.Claims() <==>
      && b.status in {Pending, Confirmed, Active}
      && (b.referral in {Applied, Rewarded} || (b.referral == Reserved && b.payment != Unpaid))
    ensures b.Stale() <==> b.referral == Reserved && b.status == Pending && b.payment == Unpaid
  {}

  /** One reversed reward: one referral and its amount less, neither below zero; other referrers and what was granted stay. */
  lemma DecrementWrites(stats: map<nat, Stats>, referrer: nat, amount: real, user: nat)
    requires user in stats
    ensures Decrement(stats, referrer, 1, amount).Keys == stats.Keys
    ensures var row := Decrement(stats, referrer, 1, amount)[user];
      if user != referrer then row == stats[user]
      else
        && row.granted == stats[user].granted && row.referrals >= 0 && row.pending >= 0.0
        && (stats[user].referrals >= 1 ==> row.referrals == stats[user].referrals - 1)
        && (stats[user].pending >= amount ==> row.pending == stats[user].pending - amount)
        && (stats[user].referrals < 1 ==> row.referrals == 0)
        && (stats[user].pending < amount ==> row.pending == 0.0)
  {}

  /** A creation waits for its own user's row, while another creation or confirmation of that user has it, and for nothing else. */
  lemma UserLockIff(s: State, t: nat)
    requires t in s.txs && s.txs[t].Creating?
    ensures Enabled(s, LockUser(t)) <==>
      forall u :: u in s.txs && u != t ==>
        && (s.txs[u].Creating? && s.txs[u].user == s.txs[t].user ==> !s.txs[u].locked)
        && (s.txs[u].Confirming? && s.txs[u].booking < |s.bookings| && s.bookings[s.txs[u].booking].user == Some(s.txs[t].user) ==>
              !s.txs[u].userLocked)
  {}

  /** A confirmation waits for its own booking, while another confirmation has it or a creation has released it. */
  lemma BookingLockIff(s: State, t: nat)
    requires t in s.txs && s.txs[t].Confirming?
    ensures Enabled(s, LockBooking(t)) <==>
      forall u :: u in s.txs && u != t ==>
        && (s.txs[u].Confirming? && s.txs[u].bookingLocked ==> s.txs[u].booking != s.txs[t].booking)
        && (s.txs[u].Creating? ==> s.txs[t].booking !in s.txs[u].released)
  {}

  /** The release loop takes up each listed reservation once, and releases those that still are one. */
  lemma ReleaseOneWrites(s: State, t: nat, id: nat)
    requires Enabled(s, ReleaseOne(t, id))
    ensures var v := Do(s, ReleaseOne(t, id)); var b := s.bookings[id];
      && v.bookings == s.bookings && v.rewards == s.rewards && v.used == s.used && v.txs.Keys == s.txs.Keys
      && v.txs[t].Creating? && v.txs[t].user == s.txs[t].user && v.txs[t].stale == Some(s.txs[t].stale.value - {id})
      && v.txs[t].released ==
           s.txs[t].released + (if b.referral == Reserved && b.status == Pending && b.payment == Unpaid then {id} else {})
  {}

  /** What is listed for release: every reservation of the user that is pending and unpaid. */
  lemma FindStaleLists(s: State, t: nat)
    requires Enabled(s, FindStale(t))
    ensures var listed := Do(s, FindStale(t)).txs[t].stale;
      listed.Some? && forall b: nat :: b in listed.value <==>
        && b < |s.bookings| && s.bookings[b].user == Some(s.txs[t].user)
        && s.bookings[b].referral == Reserved && s.bookings[b].status == Pending && s.bookings[b].payment == Unpaid
  {}

  /** The discount is granted when no other booking of the user claims it but those being released, and refused otherwise. */
  lemma ClaimsDecide(s: State, t: nat)
    requires Enabled(s, CheckClaims(t))
    ensures (t in Do(s, CheckClaims(t)).txs && Do(s, CheckClaims(t)).txs[t].verified) <==>
      forall b :: 0 <= b < |s.bookings| && s.bookings[b].user == Some(s.txs[t].user) && b !in s.txs[t].released ==> !s.bookings[b].Claims()
  {}

  /** A new reward: one referral and a pending amount more. A paid one: granted instead of pending. A referrer without a row gets one. */
  lemma CountersWrite(stats: map<nat, Stats>, referrer: nat, amount: real)
    ensures var t := Increment(stats, referrer, amount);
      && t == stats[referrer := t[referrer]]
      && (referrer !in stats ==> t[referrer].referrals == 1 && t[referrer].pending == amount && t[referrer].granted == 0.0)
      && (referrer in stats ==>
            && t[referrer].referrals - stats[referrer].referrals == 1 && t[referrer].granted == stats[referrer].granted
            && t[referrer].pending - stats[referrer].pending == amount)
    ensures var t := GrantStats(stats, referrer, amount);
      && t == stats[referrer := t[referrer]]
      && (referrer !in stats ==> t[referrer].referrals == 1 && t[referrer].pending == 0.0 && t[referrer].granted == amount)
      && (referrer in stats ==>
            && t[referrer].referrals == stats[referrer].referrals && t[referrer].granted - stats[referrer].granted == amount
            && (stats[referrer].pending >= amount ==> stats[referrer].pending - t[referrer].pending == amount)
            && (stats[referrer].pending < amount ==> t[referrer].pending == 0.0))
  {}
}
