/**
  The code that writes the referral tables: the verification of a discount with its release loop,
  the capped balance, booking creation, confirmation, expiry and cancellation. Every method is
  proved to take the tables from one reachable state of the ledger to another, while transactions of
  other users may be open.
 */
module ReferralRuntime {
  import opened Foundations
  import opened BookingResponse
  import opened ReferralLedger
  import opened ReferralCounters
  import opened ReferralInvariants
  import opened ReferralTheorems
  import opened ReferralRuns
  import opened ReferralEffects
  import Pricing = BookingPricing

  const SESSION_DURATION_MS: int := 10 * 60 * 1000

  datatype LedgerError = ReferralDiscountNoLongerAvailable | BookingNotFound | BookingNotCancellable

  /** `getCappedReferralCreditBalance`. */
  function CappedBalance(s: State, user: nat, maxPerBooking: real): real
  {
    var available := FloorAtZero(Earned(s, user) - Committed(s, user));
    var cap := FloorAtZero(maxPerBooking);
    if available < cap then available else cap
  }

  /** The balance is never negative, never above the cap, and spending it never overspends. */
  lemma BalanceIsSpendable(s: State, user: nat, maxPerBooking: real)
    requires Reachable(s, true)
    ensures 0.0 <= CappedBalance(s, user, maxPerBooking) <= FloorAtZero(maxPerBooking)
    ensures Committed(s, user) + CappedBalance(s, user, maxPerBooking) <= Earned(s, user)
    ensures maxPerBooking >= 0.0 ==>
      CappedBalance(s, user, maxPerBooking) == maxPerBooking || CappedBalance(s, user, maxPerBooking) == Earned(s, user) - Committed(s, user)
    ensures maxPerBooking < 0.0 ==> CappedBalance(s, user, maxPerBooking) == 0.0
  {
    CreditsAreNeverOverspent(s, user);
  }

  /** Counters that agree with the same rewards are the same counters. */
  lemma CountersAreDetermined(rewards: seq<Reward>, a: map<nat, Stats>, b: map<nat, Stats>)
    requires CountersAgree(rewards, a) && CountersAgree(rewards, b) && a.Keys == b.Keys
    ensures a == b
  {
    forall user | user in a ensures a[user] == b[user] {
      assert RowAgrees(rewards, a, user) && RowAgrees(rewards, b, user);
    }
  }

  lemma {:induction false} ReversalKeepsKeys(rewards: seq<Reward>, stats: map<nat, Stats>, ids: set<nat>, i: nat)
    requires i <= |rewards|
    ensures ReverseFrom(rewards, stats, ids, i).1.Keys == stats.Keys
    decreases |rewards| - i
  {
    if i < |rewards| {
      if rewards[i].booking in ids && rewards[i].status.PendingReward? {
        ReversalKeepsKeys(rewards[i := rewards[i].(status := ReversedReward)],
                          Decrement(stats, rewards[i].referrer, 1, rewards[i].amount), ids, i + 1);
      } else {
        ReversalKeepsKeys(rewards, stats, ids, i + 1);
      }
    }
  }

  /** Reversing booking by booking comes to the same as reversing them all at once. */
  lemma ReversalsCompose(rewards: seq<Reward>, stats: map<nat, Stats>, ids: set<nat>, id: nat)
    requires CountersAgree(rewards, stats) && RewardsPositive(rewards)
    ensures var first := ReverseFrom(rewards, stats, ids, 0);
      ReverseFrom(first.0, first.1, {id}, 0) == ReverseFrom(rewards, stats, ids + {id}, 0)
  {
    var first := ReverseFrom(rewards, stats, ids, 0);
    var second := ReverseFrom(first.0, first.1, {id}, 0);
    var both := ReverseFrom(rewards, stats, ids + {id}, 0);
    forall k | 0 <= k < |rewards| ensures second.0[k] == both.0[k] {
      ReverseFromRewards(rewards, stats, ids, 0, k);
      ReverseFromRewards(first.0, first.1, {id}, 0, k);
      ReverseFromRewards(rewards, stats, ids + {id}, 0, k);
    }
    assert second.0 == both.0;
    ReverseFromAgrees(rewards, stats, ids, 0);
    ReverseFromAgrees(first.0, first.1, {id}, 0);
    ReverseFromAgrees(rewards, stats, ids + {id}, 0);
    ReversalKeepsKeys(rewards, stats, ids, 0);
    ReversalKeepsKeys(first.0, first.1, {id}, 0);
    ReversalKeepsKeys(rewards, stats, ids + {id}, 0);
    CountersAreDetermined(both.0, second.1, both.1);
  }

  lemma ReleasesCompose(s: State, ids: set<nat>, id: nat)
    requires Inv(s) && id !in ids
    ensures Releases(Releases(s, ids), {id}) == Releases(s, ids + {id})
  {
    ReversalsCompose(s.rewards, s.stats, ids, id);
    var rows := ReleasedRows(s.bookings, ids);
    assert ReleasedRows(rows, {id}) == ReleasedRows(s.bookings, ids + {id});
  }

  /** Nobody else holds a row that a transaction of this user needs. */
  ghost predicate FreeFor(s: State, t: nat, user: nat)
  {
    && t !in s.txs && UserFree(s, t, user)
    && forall b :: 0 <= b < |s.bookings| && s.bookings[b].user == Some(user) ==> Unheld(s, b)
  }

  /** The tables of a state without its transactions. */
  function Untracked(s: State): State { s.(txs := map[]) }

  class ReferralService {
    var bookings: seq<Booking>
    var rewards: seq<Reward>
    var stats: map<nat, Stats>
    var used: set<nat>
    ghost var state: State

    ghost predicate Tables()
      reads this
    {
      state.bookings == bookings && state.rewards == rewards && state.stats == stats && state.used == used
    }

    ghost predicate Valid()
      reads this
    {
      Reachable(state, true) && Tables()
    }

    constructor ()
      ensures Valid() && bookings == [] && rewards == [] && stats == map[] && used == {} && state.txs == map[]
    {
      bookings, rewards, stats, used, state := [], [], map[], {}, EMPTY;
      new;
      assert ValidRun(EMPTY, [], true) && After(EMPTY, []) == EMPTY;
    }

    /** The tables as a value. */
    function Snapshot(): State
      reads this
    {
      State(bookings, rewards, stats, used, map[])
    }

    /** `releaseReferralReservation` inside a transaction: the row, its rewards and their counters, or nothing. */
    method ReleaseReferralReservation(id: nat) returns (released: bool)
      requires id < |bookings|
      modifies `bookings, `rewards, `stats
      ensures released == old(bookings)[id].Stale()
      ensures var before := old(Snapshot());
        Snapshot() == if released then Releases(before, {id}) else before
    {
      released := bookings[id].Stale();
      if released {
        assert ReleasedRows(bookings, {id}) == bookings[id := ReleasedReservation(bookings[id])];
        bookings := bookings[id := ReleasedReservation(bookings[id])];
        var reversed := ReverseFrom(rewards, stats, {id}, 0);
        rewards, stats := reversed.0, reversed.1;
      }
    }

    /** One turn of the release loop: the listed reservation is still stale, so it is released. */
    method ReleaseListed(t: nat, user: nat, remaining: set<nat>, ghost released: set<nat>, id: nat)
      requires Reachable(state, true) && FreeFor(state, t, user)
      requires id in remaining && remaining <= StaleOf(state, user) && released == StaleOf(state, user) - remaining
      requires Snapshot() == Untracked(Releases(state, released)) && UnderWay(state, t, user, remaining, released)
      modifies `bookings, `rewards, `stats
      ensures Snapshot() == Untracked(Releases(state, released + {id}))
      ensures UnderWay(state, t, user, remaining - {id}, released + {id})
    {
      ReleaseStep(state, t, user, remaining, released, id);
      var done := ReleaseReferralReservation(id);
    }

    /** `releaseStaleReferralReservationsForUser`: every reservation listed is released, one by one. */
    method ReleaseStaleReferralReservationsForUser(t: nat, user: nat) returns (stale: set<nat>)
      requires Valid() && FreeFor(state, t, user) && user !in used
      modifies `bookings, `rewards, `stats
      ensures stale == StaleOf(state, user)
      ensures Snapshot() == Untracked(Releases(state, stale))
      ensures UnderWay(state, t, user, {}, stale)
    {
      ReleaseStart(state, t, user);
      stale := set b | 0 <= b < |bookings| && bookings[b].user == Some(user) && bookings[b].Stale();
      var remaining := stale;
      ghost var released: set<nat> := {};
      while remaining != {}
        invariant remaining <= stale && released == stale - remaining
        invariant Snapshot() == Untracked(Releases(state, released))
        invariant UnderWay(state, t, user, remaining, released)
        decreases |remaining|
      {
        var id :| id in remaining;
        ReleaseListed(t, user, remaining, released, id);
        released := released + {id};
        remaining := remaining - {id};
      }
      assert released == stale;
    }

    /**
      `verifyAndReserveReferralDiscountInTransaction`: refused exactly when the discount has been
      used; otherwise every stale reservation of the user is released first.
     */
    method VerifyAndReserveReferralDiscount(t: nat, user: nat) returns (result: Result<set<nat>, LedgerError>)
      requires Valid() && FreeFor(state, t, user)
      modifies `bookings, `rewards, `stats
      ensures result == if user in used then Err(ReferralDiscountNoLongerAvailable) else Ok(StaleOf(state, user))
      ensures result.Err? ==> Tables()
      ensures result.Ok? ==> Snapshot() == Untracked(Releases(state, result.value))
      ensures result.Ok? ==> Verified(state, t, user, result.value)
    {
      if user in used {
        result := Err(ReferralDiscountNoLongerAvailable);
      } else {
        var stale := ReleaseStaleReferralReservationsForUser(t, user);
        ClaimsChecked(state, t, user, stale);
        result := Ok(stale);
      }
    }

    /** The inserts of the creation transaction: the booking, its pending reward and the counters. */
    method Insert(user: nat, discount: Option<nat>, rewardAmount: Option<real>, credits: real)
      modifies `bookings, `rewards, `stats
      ensures Snapshot() == Appended(old(Snapshot()), user, discount, rewardAmount, credits)
    {
      if discount.Some? && rewardAmount.Some? {
        rewards := rewards + [Reward(discount.value, |bookings|, rewardAmount.value, PendingReward)];
        stats := Increment(stats, discount.value, rewardAmount.value);
      }
      bookings := bookings + [Booking(Some(user), Pending, Unpaid, if discount.Some? then Reserved else NoReferral, discount, credits, credits)];
    }

    /**
      The referral side of the creation transaction: the discount first, then the credits, then the
      new booking with its reward. `discount` and `rewardAmount` are what the preliminary check found.
     */
    method CreateBooking(t: nat, user: nat, discount: Option<nat>, rewardAmount: Option<real>, requestedCredits: real, maxCredits: real, price: real)
      returns (result: Result<nat, LedgerError>)
      requires Valid() && FreeFor(state, t, user)
      requires rewardAmount.Some? ==> discount.Some? && rewardAmount.value > 0.0
      modifies this
      ensures Valid() && state.txs == old(state).txs
      ensures result == if discount.Some? && user in old(used) then Err(ReferralDiscountNoLongerAvailable) else Ok(|old(bookings)|)
      ensures result.Err? ==> Snapshot() == old(Snapshot())
      ensures result.Ok? ==>
        var before := if discount.Some? then Releases(old(state), StaleOf(old(state), user)) else old(state);
        state == Appended(before, user, discount, rewardAmount, CreditsGranted(old(state), user, requestedCredits, maxCredits, price))
    {
      var released: set<nat> := {};
      if discount.Some? {
        var verification := VerifyAndReserveReferralDiscount(t, user);
        if verification.Err? {
          return Err(ReferralDiscountNoLongerAvailable);
        }
        released := verification.value;
      }
      var credits := CreditsGranted(Snapshot(), user, requestedCredits, maxCredits, price);
      ReleasesKeepBalance(state, released, user);
      CreationCommits(state, t, user, discount, rewardAmount, requestedCredits, maxCredits, price, released);
      result := Ok(|bookings|);
      Insert(user, discount, rewardAmount, credits);
      state := Appended(Releases(state, released), user, discount, rewardAmount, credits);
    }

    /** The transaction of `confirmFromPayment`: only a pending booking is confirmed, and a reserved discount is used up. */
    method ConfirmFromPayment(t: nat, b: nat) returns (confirmed: bool)
      requires Valid() && t !in state.txs
      requires b < |bookings| ==> Unheld(state, b) && (bookings[b].user.Some? ==> UserFree(state, t, bookings[b].user.value))
      modifies this
      ensures Valid() && state.txs == old(state).txs
      ensures confirmed <==> b < |old(bookings)| && old(bookings)[b].status.Pending?
      ensures Snapshot() == if confirmed then ConfirmedState(old(Snapshot()), b) else old(Snapshot())
      ensures confirmed ==>
        && bookings[b].status.Confirmed? && bookings[b].payment.Paid?
        && bookings[b].user == old(bookings)[b].user && bookings[b].referrer == old(bookings)[b].referrer
        && bookings[b].creditsUsed == old(bookings)[b].creditsUsed && bookings[b].creditsReserved == old(bookings)[b].creditsReserved
        && (if old(bookings)[b].referral.Reserved?
            then bookings[b].referral.Applied? && bookings[b].user.Some? && used == old(used) + {bookings[b].user.value}
            else bookings[b].referral == old(bookings)[b].referral && used == old(used))
        && (forall user :: Committed(Snapshot(), user) == Committed(old(Snapshot()), user))
    {
      confirmed := b < |bookings| && bookings[b].status.Pending?;
      if confirmed {
        ConfirmRun(state, t, b, true);
        ConfirmEffect(state, b);
        if UsesDiscount(bookings[b]) {
          used := used + {bookings[b].user.value};
        }
        bookings := bookings[b := ConfirmedRow(bookings[b])];
        state := ConfirmedState(state, b);
      }
    }

    /** `cancelExpiredReservation`: a session without an end is over ten minutes after the booking was made. */
    method CancelExpiredReservation(b: nat, createdAt: int, sessionExpiresAt: Option<int>, now: int, successfulPayments: nat)
      returns (cancelled: bool)
      requires Valid() && (b < |bookings| ==> Unheld(state, b))
      modifies this
      ensures Valid() && state.txs == old(state).txs
      ensures cancelled <==>
        && b < |old(bookings)| && old(bookings)[b].status.Pending? && old(bookings)[b].payment.Unpaid? && successfulPayments == 0
        && (if sessionExpiresAt.Some? then sessionExpiresAt.value <= now else createdAt + 600_000 <= now)
      ensures Snapshot() == if cancelled then Expired(old(Snapshot()), b) else old(Snapshot())
      ensures cancelled ==>
        && bookings[b].status.Cancelled? && bookings[b].payment.Unpaid? && bookings[b].user == old(bookings)[b].user
        && bookings[b].creditsUsed == 0.0 && bookings[b].creditsReserved == 0.0
        && (if old(bookings)[b].referral.Reserved? then bookings[b].referral.Reversed? && bookings[b].referrer.None?
            else bookings[b].referral == old(bookings)[b].referral && bookings[b].referrer == old(bookings)[b].referrer)
    {
      var sessionExpired := match sessionExpiresAt
        case Some(end) => end <= now
        case None => createdAt <= now - SESSION_DURATION_MS;
      if b >= |bookings| || !bookings[b].status.Pending? || !bookings[b].payment.Unpaid? || !sessionExpired || successfulPayments > 0 {
        return false;
      }
      Take(state, Expire(b), true);
      state := Expired(state, b);
      var released := ReleaseReferralReservation(b);
      ReleasedOnce(old(Snapshot()), b);
      bookings := bookings[b := bookings[b].(status := BookingStatus.Cancelled, creditsUsed := 0.0, creditsReserved := 0.0)];
      cancelled := true;
    }

    /** The transaction of `cancelBooking`: confirmed and paid, the caller's own, and early enough. */
    method CancelBooking(b: nat, user: nat, withinWindow: bool) returns (result: Result<nat, LedgerError>)
      requires Valid() && (b < |bookings| ==> Unheld(state, b))
      modifies this
      ensures Valid() && state.txs == old(state).txs
      ensures result ==
        if b >= |old(bookings)| || old(bookings)[b].user != Some(user) then Err(BookingNotFound)
        else if !old(bookings)[b].status.Confirmed? || !old(bookings)[b].payment.Paid? || !withinWindow then Err(BookingNotCancellable)
        else Ok(b)
      ensures result.Err? ==> Snapshot() == old(Snapshot())
      ensures result.Ok? ==> bookings == old(bookings)[b := CancelledRow(old(bookings)[b])] && used == old(used)
      ensures result.Ok? ==> (rewards, stats) == ReverseFrom(old(rewards), old(stats), {b}, 0)
      // column by column
      ensures result.Ok? ==>
        && bookings[b].status.Cancelled? && bookings[b].payment.RefundProcessing?
        && bookings[b].creditsUsed == 0.0 && bookings[b].creditsReserved == 0.0
        && bookings[b].user == old(bookings)[b].user && bookings[b].referral == old(bookings)[b].referral
        && bookings[b].referrer == old(bookings)[b].referrer
        && |rewards| == |old(rewards)|
        && (forall k :: 0 <= k < |rewards| && rewards[k].booking == b ==> !rewards[k].status.PendingReward?)
        && (forall k :: 0 <= k < |rewards| && (rewards[k].booking != b || !old(rewards)[k].status.PendingReward?) ==> rewards[k] == old(rewards)[k])
    {
      if b >= |bookings| || bookings[b].user != Some(user) {
        result := Err(BookingNotFound);
      } else if !bookings[b].status.Confirmed? || !bookings[b].payment.Paid? || !withinWindow {
        result := Err(BookingNotCancellable);
      } else {
        Take(state, Cancel(b), true);
        state := WithRewardsReversed(SetBooking(state, b, CancelledRow(state.bookings[b])), {b});
        bookings := bookings[b := CancelledRow(bookings[b])];
        ReversalOnlyReverses(rewards, stats, {b});
        var reversed := ReverseFrom(rewards, stats, {b}, 0);
        rewards, stats := reversed.0, reversed.1;
        result := Ok(b);
      }
    }
  }

  /** As much of the request as the capped balance covers and the price leaves room for. */
  function CreditsGranted(s: State, user: nat, requested: real, maxPerBooking: real, price: real): real
  {
    Pricing.EffectiveCredits(requested, CappedBalance(s, user, maxPerBooking), price)
  }

  /** Releasing reservations moves nobody's balance. */
  lemma ReleasesKeepBalance(s: State, ids: set<nat>, user: nat)
    ensures Committed(Untracked(Releases(s, ids)), user) == Committed(s, user)
    ensures Earned(Untracked(Releases(s, ids)), user) == Earned(s, user)
    ensures Untracked(Releases(s, {})) == Untracked(s)
  {
    SumPointwise(ReleasedRows(s.bookings, ids), s.bookings, CommittedBy(user));
    ReversalKeepsEarned(s.rewards, s.stats, ids, user);
    NoReleases(s);
  }

  lemma CreationCommits(s: State, t: nat, user: nat, discount: Option<nat>, rewardAmount: Option<real>,
                        requested: real, maxPerBooking: real, price: real, released: set<nat>)
    requires Reachable(s, true) && FreeFor(s, t, user)
    requires rewardAmount.Some? ==> discount.Some? && rewardAmount.value > 0.0
    requires if discount.Some? then Verified(s, t, user, released) else released == {}
    ensures Reachable(Appended(Releases(s, released), user, discount, rewardAmount, CreditsGranted(s, user, requested, maxPerBooking, price)), true)
    ensures released == {} ==> Releases(s, released) == s
  {
    var tx := Creating(user, true, discount.Some?, if discount.Some? then Some({}) else None, released, discount.Some?, None, None);
    if discount.None? { LockedRun(s, t, user, true); }
    BalanceRun(s, t, tx, true);
    var ready := tx.(earned := Some(Earned(s, user)), committed := Some(Committed(s, user)));
    CommitCreateRun(s, t, ready, discount, rewardAmount, CreditsGranted(s, user, requested, maxPerBooking, price), true);
    NoReleases(s);
  }

  lemma ConfirmEffect(s: State, b: nat)
    requires Reachable(s, true) && b < |s.bookings| && s.bookings[b].status.Pending?
    ensures !ConfirmedRow(s.bookings[b]).referral.Reserved?
    ensures forall user :: Sum(s.bookings[b := ConfirmedRow(s.bookings[b])], CommittedBy(user)) == Sum(s.bookings, CommittedBy(user))
  {
    ReachableInv(s, true);
    assert RowOk(s.bookings[b]);
    forall user ensures Sum(s.bookings[b := ConfirmedRow(s.bookings[b])], CommittedBy(user)) == Sum(s.bookings, CommittedBy(user)) {
      SumUpdate(s.bookings, b, ConfirmedRow(s.bookings[b]), CommittedBy(user));
    }
  }

  lemma ReleasedOnce(s: State, b: nat)
    requires b < |s.bookings|
    ensures ReleasedRows(s.bookings, {b}) == s.bookings[b := ReleasedReservation(s.bookings[b])]
  {}

  /** A creation that has listed its user's stale reservations and released some of them. */
  ghost predicate UnderWay(s: State, t: nat, user: nat, remaining: set<nat>, released: set<nat>)
  {
    Reachable(With(s, t, Creating(user, true, true, Some(remaining), released, false, None, None)), true)
  }

  ghost predicate Verified(s: State, t: nat, user: nat, released: set<nat>)
  {
    Reachable(With(s, t, Creating(user, true, true, Some({}), released, true, None, None)), true)
  }

  lemma ReleaseStart(s: State, t: nat, user: nat)
    requires Reachable(s, true) && FreeFor(s, t, user) && user !in s.used
    ensures UnderWay(s, t, user, StaleOf(s, user), {})
    ensures Releases(s, {}) == s
  {
    StaleListedRun(s, t, user, true);
    NoReleases(s);
  }

  lemma ReleaseStep(s: State, t: nat, user: nat, remaining: set<nat>, released: set<nat>, id: nat)
    requires Reachable(s, true) && FreeFor(s, t, user)
    requires released == StaleOf(s, user) - remaining && id in remaining && remaining <= StaleOf(s, user)
    requires UnderWay(s, t, user, remaining, released)
    ensures UnderWay(s, t, user, remaining - {id}, released + {id})
    ensures id < |s.bookings| == |Releases(s, released).bookings|
    ensures Releases(s, released).bookings[id].Stale()
    ensures Releases(Untracked(Releases(s, released)), {id}) == Untracked(Releases(s, released + {id}))
  {
    ReachableInv(s, true);
    ReleaseOneRun(s, t, Creating(user, true, true, Some(remaining), released, false, None, None), id, true);
    ReleasesCompose(s, released, id);
  }

  lemma ClaimsChecked(s: State, t: nat, user: nat, stale: set<nat>)
    requires Reachable(s, true) && t !in s.txs && user !in s.used && stale == StaleOf(s, user)
    requires UnderWay(s, t, user, {}, stale)
    ensures Verified(s, t, user, stale)
  {
    NoClaimLeft(s, t, user, stale);
    CheckClaimsRun(s, t, Creating(user, true, true, Some({}), stale, false, None, None), true);
  }

  /** After the release loop nothing of the user's claims the discount. */
  lemma NoClaimLeft(s: State, t: nat, user: nat, stale: set<nat>)
    requires Reachable(s, true) && user !in s.used && stale == StaleOf(s, user)
    ensures !SeesClaim(s, Creating(user, true, true, Some({}), stale, false, None, None))
  {
    ReachableInv(s, true);
    forall b | 0 <= b < |s.bookings| && b !in stale && s.bookings[b].user == Some(user) ensures !s.bookings[b].Claims() {
      assert RowOk(s.bookings[b]);
    }
  }
}
