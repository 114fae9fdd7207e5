/**
  What every run of the referral ledger keeps: one discount per user for good, credits never
  overspent, counters that agree with the rewards.
 */
module ReferralInvariants {
  import opened Foundations
  import opened BookingResponse
  import opened ReferralLedger
  import opened ReferralCounters

  // ----- rows

  predicate RowOk(b: Booking)
  {
    && (b.referral.Reserved? ==> b.user.Some? && b.referrer.Some?)
    && (b.status.Pending? ==> b.payment.Unpaid? && !b.Settled())
    && (b.Open() && b.referral.Reserved? ==> b.status.Pending?)
    && (b.Settled() ==> b.user.Some?)
    && b.creditsUsed == b.creditsReserved && b.creditsReserved >= 0.0
  }

  /** The discount is used, or reserved by a booking that may still be paid. */
  predicate HoldsDiscount(b: Booking)
  {
    b.user.Some? && (b.Settled() || (b.Open() && b.referral.Reserved?))
  }

  ghost predicate OneHolder(bookings: seq<Booking>)
  {
    forall a, b :: 0 <= a < |bookings| && 0 <= b < |bookings| && a != b && bookings[a].user == bookings[b].user ==>
      !(HoldsDiscount(bookings[a]) && HoldsDiscount(bookings[b]))
  }

  ghost predicate SettledMeansUsed(s: State)
  {
    forall b :: 0 <= b < |s.bookings| && s.bookings[b].Settled() && s.bookings[b].user.Some? ==> s.bookings[b].user.value in s.used
  }

  ghost predicate RewardsOk(s: State)
  {
    RewardsPositive(s.rewards) && CountersAgree(s.rewards, s.stats)
  }

  // ----- transactions

  /** What a creation knows about its user stays true while it holds the user's row. */
  ghost predicate CreatingOk(s: State, tx: Tx)
    requires tx.Creating?
  {
    && (tx.unused ==> tx.locked && tx.user !in s.used)
    && (tx.stale.Some? ==> tx.unused)
    && (tx.stale.None? ==> tx.released == {})
    && (tx.stale.Some? ==> forall b :: b in tx.stale.value ==> b < |s.bookings| && s.bookings[b].user == Some(tx.user))
    && (tx.verified ==> tx.stale == Some({}))
    && (tx.earned.Some? || tx.committed.Some? ==> tx.locked)
    && (forall b :: b in tx.released ==> b < |s.bookings| && s.bookings[b].Stale() && s.bookings[b].user == Some(tx.user))
    && (tx.stale.Some? ==>
          forall b :: 0 <= b < |s.bookings| && s.bookings[b].user == Some(tx.user) && s.bookings[b].Stale() ==>
            b in tx.stale.value || b in tx.released)
  }

  ghost predicate ConfirmingOk(s: State, tx: Tx)
    requires tx.Confirming?
  {
    && tx.booking < |s.bookings|
    && (tx.bookingLocked ==> s.bookings[tx.booking].status.Pending?)
    && (tx.userLocked ==> tx.bookingLocked)
  }

  ghost predicate TxOk(s: State, tx: Tx)
  {
    if tx.Creating? then CreatingOk(s, tx) else ConfirmingOk(s, tx)
  }

  predicate SharesLock(s: State, t: Tx, u: Tx)
  {
    || (exists b :: 0 <= b < |s.bookings| && HoldsBooking(t, b) && HoldsBooking(u, b))
    || (t.Creating? && HoldsUser(s, t, t.user) && HoldsUser(s, u, t.user))
    || (u.Creating? && HoldsUser(s, u, u.user) && HoldsUser(s, t, u.user))
  }

  ghost predicate LocksExclusive(s: State)
  {
    forall t, u :: t in s.txs && u in s.txs && t != u ==> !SharesLock(s, s.txs[t], s.txs[u])
  }

  ghost predicate TablesOk(s: State)
  {
    && (forall b :: 0 <= b < |s.bookings| ==> RowOk(s.bookings[b]))
    && OneHolder(s.bookings) && SettledMeansUsed(s) && RewardsOk(s)
  }

  ghost predicate TxsOk(s: State)
  {
    (forall t :: t in s.txs ==> TxOk(s, s.txs[t])) && LocksExclusive(s)
  }

  ghost predicate Inv(s: State) { TablesOk(s) && TxsOk(s) }

  // ----- transactions that only look and lock

  lemma DropKeepsInv(s: State, t: nat)
    requires Inv(s)
    ensures Inv(DropTx(s, t))
  {
    var u := DropTx(s, t);
    forall i | i in u.txs ensures TxOk(u, u.txs[i]) { assert TxOk(s, s.txs[i]); }
    forall i, j | i in u.txs && j in u.txs && i != j ensures !SharesLock(u, u.txs[i], u.txs[j]) {
      assert !SharesLock(s, s.txs[i], s.txs[j]);
    }
    DroppingKeepsTables(s, t);
  }

  lemma TxStepKeepsInv(s: State, t: nat, tx: Tx)
    requires Inv(s) && TxOk(s, tx)
    requires forall u :: u in s.txs && u != t ==> !SharesLock(s, tx, s.txs[u]) && !SharesLock(s, s.txs[u], tx)
    ensures Inv(SetTx(s, t, tx))
  {
    var v := SetTx(s, t, tx);
    forall i | i in v.txs ensures TxOk(v, v.txs[i]) { if i != t { assert TxOk(s, s.txs[i]); } }
    forall i, j | i in v.txs && j in v.txs && i != j ensures !SharesLock(v, v.txs[i], v.txs[j]) {
      if i != t && j != t { assert !SharesLock(s, s.txs[i], s.txs[j]); }
    }
  }

  /** A transaction that takes no new lock. */
  lemma SameLocks(s: State, t: nat, tx: Tx)
    requires Inv(s) && t in s.txs && TxOk(s, tx) && tx.Creating? && s.txs[t].Creating?
    requires tx.user == s.txs[t].user && tx.locked == s.txs[t].locked && tx.released == s.txs[t].released
    ensures Inv(SetTx(s, t, tx))
  {
    forall u | u in s.txs && u != t ensures !SharesLock(s, tx, s.txs[u]) && !SharesLock(s, s.txs[u], tx) {
      assert !SharesLock(s, s.txs[t], s.txs[u]) && !SharesLock(s, s.txs[u], s.txs[t]);
    }
    TxStepKeepsInv(s, t, tx);
  }

  lemma LockUserKeepsInv(s: State, t: nat)
    requires Inv(s) && Enabled(s, LockUser(t))
    ensures Inv(Do(s, LockUser(t)))
  {
    var tx := s.txs[t].(locked := true);
    assert TxOk(s, s.txs[t]);
    forall u | u in s.txs && u != t ensures !SharesLock(s, tx, s.txs[u]) && !SharesLock(s, s.txs[u], tx) {
      assert !SharesLock(s, s.txs[t], s.txs[u]) && !HoldsUser(s, s.txs[u], tx.user);
    }
    TxStepKeepsInv(s, t, tx);
  }

  lemma ReleaseOneKeepsInv(s: State, t: nat, id: nat)
    requires Inv(s) && Enabled(s, ReleaseOne(t, id))
    ensures Inv(Do(s, ReleaseOne(t, id)))
  {
    var tx := Releasing(s, s.txs[t], id);
    assert TxOk(s, s.txs[t]);
    forall u | u in s.txs && u != t ensures !SharesLock(s, tx, s.txs[u]) && !SharesLock(s, s.txs[u], tx) {
      assert !SharesLock(s, s.txs[t], s.txs[u]) && !SharesLock(s, s.txs[u], s.txs[t]);
    }
    TxStepKeepsInv(s, t, tx);
  }

  lemma ConfirmStepsKeepInv(s: State, step: Step)
    requires Inv(s) && Enabled(s, step) && (step.BeginConfirm? || step.LockBooking? || step.LockConfirmedUser? || step.BeginCreate?)
    ensures Inv(Do(s, step))
  {
    var t := step.t;
    if t in s.txs { assert TxOk(s, s.txs[t]); }
    if step.LockBooking? && !s.bookings[s.txs[t].booking].status.Pending? {
      DropKeepsInv(s, t);
    } else {
      var tx := Do(s, step).txs[t];
      forall u | u in s.txs && u != t ensures !SharesLock(s, tx, s.txs[u]) && !SharesLock(s, s.txs[u], tx) {
        if t in s.txs { assert !SharesLock(s, s.txs[t], s.txs[u]) && !SharesLock(s, s.txs[u], s.txs[t]); }
      }
      TxStepKeepsInv(s, t, tx);
    }
  }

  lemma LookingKeepsInv(s: State, step: Step)
    requires Inv(s) && Enabled(s, step)
    requires step.CheckDiscountUnused? || step.FindStale? || step.CheckClaims? || step.ReadEarned? || step.ReadCommitted?
    ensures Inv(Do(s, step))
  {
    var t := step.t;
    assert TxOk(s, s.txs[t]);
    if t !in Do(s, step).txs {
      DropKeepsInv(s, t);
    } else {
      SameLocks(s, t, Do(s, step).txs[t]);
    }
  }

  // ----- transactions while the tables change

  /** The change from `s` to `v` touches nothing this transaction relies on. */
  ghost predicate Calm(s: State, v: State, tx: Tx)
  {
    && |s.bookings| <= |v.bookings|
    && (forall b :: 0 <= b < |s.bookings| && HoldsBooking(tx, b) ==> v.bookings[b] == s.bookings[b])
    && (tx.Creating? && tx.unused ==> tx.user !in v.used)
    && (tx.Creating? && tx.stale.Some? ==>
          forall b :: 0 <= b < |v.bookings| && v.bookings[b].user == Some(tx.user) && v.bookings[b].Stale() ==>
            b < |s.bookings| && s.bookings[b].Stale())
  }

  ghost predicate SameUsers(s: State, v: State)
  {
    |s.bookings| <= |v.bookings| && forall b :: 0 <= b < |s.bookings| ==> v.bookings[b].user == s.bookings[b].user
  }

  lemma TxSurvives(s: State, v: State, tx: Tx)
    requires SameUsers(s, v) && TxOk(s, tx) && Calm(s, v, tx)
    ensures TxOk(v, tx)
  {
    if tx.Creating? && tx.stale.Some? {
      forall b | 0 <= b < |v.bookings| && v.bookings[b].user == Some(tx.user) && v.bookings[b].Stale()
        ensures b in tx.stale.value || b in tx.released
      {
        assert b < |s.bookings| && s.bookings[b].Stale() && s.bookings[b].user == Some(tx.user);
      }
    }
  }

  lemma LockSurvives(s: State, v: State, t: Tx, u: Tx)
    requires SameUsers(s, v) && TxOk(s, t) && TxOk(s, u) && !SharesLock(s, t, u)
    ensures !SharesLock(v, t, u)
  {
    forall b | 0 <= b < |v.bookings| && HoldsBooking(t, b) && HoldsBooking(u, b) ensures b < |s.bookings| {}
  }

  lemma TxsSurvive(s: State, v: State)
    requires TxsOk(s) && SameUsers(s, v)
    requires forall t :: t in v.txs ==> t in s.txs && v.txs[t] == s.txs[t] && Calm(s, v, s.txs[t])
    ensures TxsOk(v)
  {
    forall t | t in v.txs ensures TxOk(v, v.txs[t]) {
      assert TxOk(s, s.txs[t]);
      TxSurvives(s, v, s.txs[t]);
    }
    forall t, u | t in v.txs && u in v.txs && t != u ensures !SharesLock(v, v.txs[t], v.txs[u]) {
      assert TxOk(s, s.txs[t]) && TxOk(s, s.txs[u]) && !SharesLock(s, s.txs[t], s.txs[u]);
      LockSurvives(s, v, s.txs[t], s.txs[u]);
    }
  }

  // ----- one row at a time

  /** A row changes without taking the discount up or becoming releasable. */
  predicate Milder(before: Booking, after: Booking)
  {
    && after.user == before.user
    && (HoldsDiscount(after) ==> HoldsDiscount(before))
    && (after.Settled() ==> before.Settled())
    && (after.Stale() ==> before.Stale())
  }

  lemma RowChangeKeepsTables(s: State, b: nat, row: Booking)
    requires TablesOk(s) && b < |s.bookings| && RowOk(row) && Milder(s.bookings[b], row)
    ensures TablesOk(SetBooking(s, b, row))
  {
    var v := SetBooking(s, b, row);
    forall i | 0 <= i < |v.bookings| ensures RowOk(v.bookings[i]) { assert RowOk(s.bookings[i]); }
    assert RowOk(s.bookings[b]);
  }

  lemma RowChangeKeepsInv(s: State, b: nat, row: Booking)
    requires Inv(s) && Unheld(s, b) && RowOk(row) && Milder(s.bookings[b], row)
    ensures Inv(SetBooking(s, b, row))
  {
    var v := SetBooking(s, b, row);
    RowChangeKeepsTables(s, b, row);
    forall t | t in v.txs ensures Calm(s, v, s.txs[t]) { assert TxOk(s, s.txs[t]); }
    TxsSurvive(s, v);
  }

  lemma ReversalKeepsInv(s: State, ids: set<nat>)
    requires Inv(s)
    ensures Inv(WithRewardsReversed(s, ids))
  {
    var v := WithRewardsReversed(s, ids);
    ReverseFromAgrees(s.rewards, s.stats, ids, 0);
    forall t | t in v.txs ensures Calm(s, v, s.txs[t]) { assert TxOk(s, s.txs[t]); }
    TxsSurvive(s, v);
    assert forall b :: 0 <= b < |v.bookings| ==> RowOk(s.bookings[b]);
  }

  lemma RowStepsKeepInv(s: State, step: Step)
    requires Inv(s) && Enabled(s, step)
    requires step.ReserveRefund? || step.FinalizeRefund? || step.MarkUnpaid? || step.Activate? || step.Complete?
    ensures Inv(Do(s, step))
  {
    assert RowOk(s.bookings[step.booking]);
    RowChangeKeepsInv(s, step.booking, Do(s, step).bookings[step.booking]);
  }

  lemma CancelKeepsInv(s: State, b: nat)
    requires Inv(s) && Enabled(s, Cancel(b))
    ensures Inv(Do(s, Cancel(b)))
  {
    assert RowOk(s.bookings[b]);
    RowChangeKeepsInv(s, b, CancelledRow(s.bookings[b]));
    ReversalKeepsInv(SetBooking(s, b, CancelledRow(s.bookings[b])), {b});
  }

  lemma ExpireKeepsInv(s: State, b: nat)
    requires Inv(s) && Enabled(s, Expire(b))
    ensures Inv(Do(s, Expire(b)))
  {
    assert RowOk(s.bookings[b]);
    RowChangeKeepsInv(s, b, ExpiredRow(s.bookings[b]));
    ReversalKeepsInv(SetBooking(s, b, ExpiredRow(s.bookings[b])), {b});
  }

  lemma ReleaseRewardKeepsInv(s: State, r: nat)
    requires Inv(s) && Enabled(s, ReleaseReward(r))
    ensures Inv(Do(s, ReleaseReward(r)))
  {
    var b := s.rewards[r].booking;
    assert RowOk(s.bookings[b]);
    var row := s.bookings[b].(referral := Rewarded);
    RowChangeKeepsInv(s, b, row);
    var v := SetBooking(s, b, row);
    var w := RewardReleased(s, r);
    assert s.used + {s.bookings[b].user.value} == s.used;
    GrantAgrees(s.rewards, s.stats, r);
    forall t | t in w.txs ensures Calm(v, w, v.txs[t]) { assert TxOk(v, v.txs[t]); }
    TxsSurvive(v, w);
    assert forall i :: 0 <= i < |w.bookings| ==> RowOk(v.bookings[i]);
  }

  // ----- confirmation

  /** While a reservation is being confirmed under the user's lock, no creation of that user's is past its own lock. */
  lemma ConfirmIsCalm(s: State, t: nat, u: nat)
    requires Inv(s) && Enabled(s, CommitConfirm(t)) && u in s.txs && u != t
    ensures Calm(s, ConfirmedState(s, s.txs[t].booking), s.txs[u])
  {
    assert TxOk(s, s.txs[t]) && TxOk(s, s.txs[u]);
    assert !SharesLock(s, s.txs[t], s.txs[u]) && !SharesLock(s, s.txs[u], s.txs[t]);
  }

  lemma ConfirmKeepsTables(s: State, b: nat)
    requires TablesOk(s) && b < |s.bookings| && s.bookings[b].status.Pending?
    ensures TablesOk(ConfirmedState(s, b))
  {
    var v := ConfirmedState(s, b);
    assert RowOk(s.bookings[b]);
    forall i | 0 <= i < |v.bookings| ensures RowOk(v.bookings[i]) { assert RowOk(s.bookings[i]); }
    assert HoldsDiscount(v.bookings[b]) ==> HoldsDiscount(s.bookings[b]);
  }

  lemma CommitConfirmKeepsInv(s: State, t: nat)
    requires Inv(s) && Enabled(s, CommitConfirm(t))
    ensures Inv(Do(s, CommitConfirm(t)))
  {
    var b := s.txs[t].booking;
    assert TxOk(s, s.txs[t]);
    ConfirmKeepsTables(s, b);
    var v := DropTx(ConfirmedState(s, b), t);
    forall u | u in v.txs ensures Calm(s, v, s.txs[u]) {
      ConfirmIsCalm(s, t, u);
    }
    TxsSurvive(s, v);
    assert forall i :: 0 <= i < |v.bookings| ==> RowOk(ConfirmedState(s, b).bookings[i]);
  }

  // ----- creation

  lemma ReleasesKeepTables(s: State, tx: Tx)
    requires TablesOk(s) && tx.Creating? && CreatingOk(s, tx)
    ensures TablesOk(Releases(s, tx.released))
  {
    var v := s.(bookings := ReleasedRows(s.bookings, tx.released));
    forall i | 0 <= i < |v.bookings| ensures RowOk(v.bookings[i]) { assert RowOk(s.bookings[i]); }
    assert forall i :: 0 <= i < |v.bookings| ==>
      v.bookings[i].user == s.bookings[i].user && (HoldsDiscount(v.bookings[i]) ==> HoldsDiscount(s.bookings[i]));
    ReverseFromAgrees(s.rewards, s.stats, tx.released, 0);
    var w := Releases(s, tx.released);
    assert forall i :: 0 <= i < |w.bookings| ==> RowOk(v.bookings[i]);
  }

  /** After the releases of a verified creation nothing of its user's holds the discount. */
  lemma VerifiedMeansFree(s: State, tx: Tx)
    requires TablesOk(s) && tx.Creating? && CreatingOk(s, tx) && tx.verified
    ensures forall b :: 0 <= b < |s.bookings| && s.bookings[b].user == Some(tx.user) ==>
      !HoldsDiscount(ReleasedRows(s.bookings, tx.released)[b])
  {
    forall b | 0 <= b < |s.bookings| && s.bookings[b].user == Some(tx.user)
      ensures !HoldsDiscount(ReleasedRows(s.bookings, tx.released)[b])
    {
      assert RowOk(s.bookings[b]);
    }
  }

  lemma AppendKeepsTables(s: State, user: nat, discount: Option<nat>, rewardAmount: Option<real>, credits: real)
    requires TablesOk(s) && credits >= 0.0
    requires rewardAmount.Some? ==> discount.Some? && rewardAmount.value > 0.0
    requires discount.Some? ==> forall b :: 0 <= b < |s.bookings| && s.bookings[b].user == Some(user) ==> !HoldsDiscount(s.bookings[b])
    ensures TablesOk(Appended(s, user, discount, rewardAmount, credits))
  {
    var v := Appended(s, user, discount, rewardAmount, credits);
    forall i | 0 <= i < |v.bookings| ensures RowOk(v.bookings[i]) {
      if i < |s.bookings| { assert RowOk(s.bookings[i]); }
    }
    if rewardAmount.Some? {
      CreationAgrees(s.rewards, s.stats, Reward(discount.value, |s.bookings|, rewardAmount.value, PendingReward));
    }
  }

  /** Row by row, what a creation commits. */
  lemma CommitCreateRows(s: State, t: nat, discount: Option<nat>, rewardAmount: Option<real>, credits: real)
    requires Enabled(s, CommitCreate(t, discount, rewardAmount, credits))
    ensures var v := Do(s, CommitCreate(t, discount, rewardAmount, credits));
      && |v.bookings| == |s.bookings| + 1 && v.used == s.used
      && (forall b :: 0 <= b < |s.bookings| ==>
            v.bookings[b] == if b in s.txs[t].released then ReleasedReservation(s.bookings[b]) else s.bookings[b])
      && v.bookings[|s.bookings|].user == Some(s.txs[t].user)
      && (discount.None? ==> v.bookings[|s.bookings|].referral.NoReferral?)
  {}

  lemma CommitCreateIsCalm(s: State, t: nat, discount: Option<nat>, rewardAmount: Option<real>, credits: real, u: nat)
    requires Inv(s) && Enabled(s, CommitCreate(t, discount, rewardAmount, credits)) && u in s.txs && u != t
    ensures Calm(s, Do(s, CommitCreate(t, discount, rewardAmount, credits)), s.txs[u])
  {
    CommitCreateRows(s, t, discount, rewardAmount, credits);
    assert TxOk(s, s.txs[t]) && TxOk(s, s.txs[u]);
    assert !SharesLock(s, s.txs[t], s.txs[u]) && !SharesLock(s, s.txs[u], s.txs[t]);
    CalmRows(s, Do(s, CommitCreate(t, discount, rewardAmount, credits)), s.txs[t], s.txs[u], discount.Some?);
  }

  /** New rows of a user that another creation is not holding, and the releases of rows it is not holding, disturb nobody else. */
  lemma CalmRows(s: State, v: State, mine: Tx, theirs: Tx, discounted: bool)
    requires mine.Creating? && CreatingOk(s, mine) && TxOk(s, theirs) && (discounted ==> mine.verified)
    requires !SharesLock(s, mine, theirs) && !SharesLock(s, theirs, mine)
    requires |v.bookings| == |s.bookings| + 1 && v.used == s.used
    requires forall b :: 0 <= b < |s.bookings| ==>
      v.bookings[b] == if b in mine.released then ReleasedReservation(s.bookings[b]) else s.bookings[b]
    requires v.bookings[|s.bookings|].user == Some(mine.user)
    requires !discounted ==> v.bookings[|s.bookings|].referral.NoReferral?
    ensures Calm(s, v, theirs)
  {}

  lemma CommitCreateKeepsInv(s: State, t: nat, discount: Option<nat>, rewardAmount: Option<real>, credits: real)
    requires Inv(s) && Enabled(s, CommitCreate(t, discount, rewardAmount, credits))
    ensures Inv(Do(s, CommitCreate(t, discount, rewardAmount, credits)))
  {
    var tx := s.txs[t];
    assert TxOk(s, tx);
    var released := Releases(s, tx.released);
    var appended := Appended(released, tx.user, discount, rewardAmount, credits);
    var v := DropTx(appended, t);
    ReleasesKeepTables(s, tx);
    if tx.verified { VerifiedMeansFree(s, tx); }
    AppendKeepsTables(released, tx.user, discount, rewardAmount, credits);
    forall u | u in v.txs ensures Calm(s, v, s.txs[u]) {
      CommitCreateIsCalm(s, t, discount, rewardAmount, credits, u);
    }
    TxsSurvive(s, v);
    DroppingKeepsTables(appended, t);
  }

  lemma DroppingKeepsTables(s: State, t: nat)
    requires TablesOk(s)
    ensures TablesOk(DropTx(s, t))
  {
    assert forall i :: 0 <= i < |s.bookings| ==> RowOk(s.bookings[i]);
  }

  lemma GuestKeepsInv(s: State)
    requires Inv(s)
    ensures Inv(Do(s, CreateAsGuest))
  {
    var v := Do(s, CreateAsGuest);
    forall i | 0 <= i < |v.bookings| ensures RowOk(v.bookings[i]) {
      if i < |s.bookings| { assert RowOk(s.bookings[i]); }
    }
    forall u | u in v.txs ensures Calm(s, v, s.txs[u]) { assert TxOk(s, s.txs[u]); }
    TxsSurvive(s, v);
  }

  // ----- every step

  lemma StepKeepsInv(s: State, step: Step)
    requires Inv(s) && Enabled(s, step)
    ensures Inv(Do(s, step))
  {
    match step
    case LockUser(t) => LockUserKeepsInv(s, t);
    case ReleaseOne(t, id) => ReleaseOneKeepsInv(s, t, id);
    case CommitCreate(t, discount, rewardAmount, credits) => CommitCreateKeepsInv(s, t, discount, rewardAmount, credits);
    case CreateAsGuest => GuestKeepsInv(s);
    case CommitConfirm(t) => CommitConfirmKeepsInv(s, t);
    case Abort(t) => DropKeepsInv(s, t);
    case Expire(b) => ExpireKeepsInv(s, b);
    case Cancel(b) => CancelKeepsInv(s, b);
    case ReleaseReward(r) => ReleaseRewardKeepsInv(s, r);
    case _ => OtherStepsKeepInv(s, step);
  }

  lemma OtherStepsKeepInv(s: State, step: Step)
    requires Inv(s) && Enabled(s, step)
    requires !step.LockUser? && !step.ReleaseOne? && !step.CommitCreate? && !step.CreateAsGuest? && !step.CommitConfirm?
      && !step.Abort? && !step.Expire? && !step.Cancel? && !step.ReleaseReward?
    ensures Inv(Do(s, step))
  {
    if step.BeginConfirm? || step.LockBooking? || step.LockConfirmedUser? || step.BeginCreate? {
      ConfirmStepsKeepInv(s, step);
    } else if step.CheckDiscountUnused? || step.FindStale? || step.CheckClaims? || step.ReadEarned? || step.ReadCommitted? {
      LookingKeepsInv(s, step);
    } else {
      RowStepsKeepInv(s, step);
    }
  }
}
