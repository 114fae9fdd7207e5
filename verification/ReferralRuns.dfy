/**
  Whole transactions of the referral ledger, carried out without a break, as runs of its machine;
  and a run in which a late payment failure commits refunded credits a second time.
 */
module ReferralRuns {
  import opened Foundations
  import opened BookingResponse
  import opened ReferralLedger

  lemma {:induction false} AppendStep(s: State, run: seq<Step>, step: Step, tidy: bool)
    requires ValidRun(s, run, tidy) && Allowed(After(s, run), step, tidy)
    ensures ValidRun(s, run + [step], tidy) && After(s, run + [step]) == Do(After(s, run), step)
    decreases |run|
  {
    if run == [] {
      assert run + [step] == [step];
      assert [step][1..] == [];
    } else {
      assert (run + [step])[1..] == run[1..] + [step];
      AppendStep(Do(s, run[0]), run[1..], step, tidy);
    }
  }

  lemma Take(s: State, step: Step, tidy: bool)
    requires Reachable(s, tidy) && Allowed(s, step, tidy)
    ensures Reachable(Do(s, step), tidy)
  {
    var run :| ValidRun(EMPTY, run, tidy) && After(EMPTY, run) == s;
    AppendStep(EMPTY, run, step, tidy);
  }

  /** The tables with transaction `t` in this state. */
  function With(s: State, t: nat, tx: Tx): State { SetTx(s, t, tx) }

  lemma SetTwice(s: State, t: nat, a: Tx, b: Tx)
    ensures With(With(s, t, a), t, b) == With(s, t, b)
  {
    assert s.txs[t := a][t := b] == s.txs[t := b];
  }

  lemma DropAfterSet(s: State, t: nat, tx: Tx)
    requires t !in s.txs
    ensures DropTx(With(s, t, tx), t) == s
  {
    assert s.txs[t := tx] - {t} == s.txs;
  }

  function Fresh(user: nat): Tx { Creating(user, false, false, None, {}, false, None, None) }

  function UserLocked(user: nat): (tx: Tx)
    ensures tx.Creating? && tx.user == user && tx.locked && tx.released == {}
  {
    Creating(user, true, false, None, {}, false, None, None)
  }

  function Listed(user: nat, stale: set<nat>): (tx: Tx)
    ensures tx.Creating? && tx.user == user && tx.stale == Some(stale) && tx.released == {}
  {
    Creating(user, true, true, Some(stale), {}, false, None, None)
  }

  lemma LockedRun(s: State, t: nat, user: nat, tidy: bool)
    requires Reachable(s, tidy) && t !in s.txs && UserFree(s, t, user)
    ensures Reachable(With(s, t, UserLocked(user)), tidy)
  {
    Take(s, BeginCreate(t, user), tidy);
    var begun := With(s, t, Fresh(user));
    Take(begun, LockUser(t), tidy);
    SetTwice(s, t, Fresh(user), UserLocked(user));
  }

  /** After the user's row is locked and the flag found unset, the stale reservations are listed. */
  lemma StaleListedRun(s: State, t: nat, user: nat, tidy: bool)
    requires Reachable(s, tidy) && t !in s.txs && UserFree(s, t, user) && user !in s.used
    ensures Reachable(With(s, t, Listed(user, StaleOf(s, user))), tidy)
  {
    LockedRun(s, t, user, tidy);
    var locked := With(s, t, UserLocked(user));
    Take(locked, CheckDiscountUnused(t), tidy);
    var unused := UserLocked(user).(unused := true);
    SetTwice(s, t, UserLocked(user), unused);
    Take(With(s, t, unused), FindStale(t), tidy);
    SetTwice(s, t, unused, unused.(stale := Some(StaleOf(s, user))));
  }

  lemma ReleaseOneRun(s: State, t: nat, tx: Tx, id: nat, tidy: bool)
    requires t !in s.txs && tx.Creating? && tx.stale.Some? && id in tx.stale.value && id < |s.bookings| && Unheld(s, id)
    requires Reachable(With(s, t, tx), tidy)
    ensures Reachable(With(s, t, Releasing(s, tx, id)), tidy)
  {
    var v := With(s, t, tx);
    Take(v, ReleaseOne(t, id), tidy);
    SetTwice(s, t, tx, Releasing(s, tx, id));
  }

  lemma CheckClaimsRun(s: State, t: nat, tx: Tx, tidy: bool)
    requires t !in s.txs && tx.Creating? && tx.stale == Some({}) && !SeesClaim(s, tx)
    requires Reachable(With(s, t, tx), tidy)
    ensures Reachable(With(s, t, tx.(verified := true)), tidy)
  {
    var v := With(s, t, tx);
    assert !SeesClaim(v, tx);
    Take(v, CheckClaims(t), tidy);
    SetTwice(s, t, tx, tx.(verified := true));
  }

  lemma BalanceRun(s: State, t: nat, tx: Tx, tidy: bool)
    requires t !in s.txs && tx.Creating? && tx.locked && Reachable(With(s, t, tx), tidy)
    ensures Reachable(With(s, t, tx.(earned := Some(Earned(s, tx.user)), committed := Some(Committed(s, tx.user)))), tidy)
  {
    Take(With(s, t, tx), ReadEarned(t), tidy);
    var earned := tx.(earned := Some(Earned(s, tx.user)));
    SetTwice(s, t, tx, earned);
    Take(With(s, t, earned), ReadCommitted(t), tidy);
    SetTwice(s, t, earned, earned.(committed := Some(Committed(s, tx.user))));
  }

  lemma CommitCreateRun(s: State, t: nat, tx: Tx, discount: Option<nat>, rewardAmount: Option<real>, credits: real, tidy: bool)
    requires t !in s.txs && tx.Creating? && CreationAllowed(tx, discount, rewardAmount, credits)
    requires Reachable(With(s, t, tx), tidy)
    ensures Reachable(Appended(Releases(s, tx.released), tx.user, discount, rewardAmount, credits), tidy)
  {
    var v := With(s, t, tx);
    Take(v, CommitCreate(t, discount, rewardAmount, credits), tidy);
    DropAfterSet(Appended(Releases(s, tx.released), tx.user, discount, rewardAmount, credits), t, tx);
  }

  /** An undisturbed confirmation. */
  lemma ConfirmRun(s: State, t: nat, b: nat, tidy: bool)
    requires Reachable(s, tidy) && t !in s.txs && Unheld(s, b) && s.bookings[b].status.Pending?
    requires UsesDiscount(s.bookings[b]) ==> UserFree(s, t, s.bookings[b].user.value)
    ensures Reachable(ConfirmedState(s, b), tidy)
  {
    Take(s, BeginConfirm(t, b), tidy);
    Take(With(s, t, Confirming(b, false, false)), LockBooking(t), tidy);
    SetTwice(s, t, Confirming(b, false, false), Confirming(b, true, false));
    if UsesDiscount(s.bookings[b]) {
      Take(With(s, t, Confirming(b, true, false)), LockConfirmedUser(t), tidy);
      SetTwice(s, t, Confirming(b, true, false), Confirming(b, true, true));
      CommitConfirmRun(s, t, Confirming(b, true, true), tidy);
    } else {
      CommitConfirmRun(s, t, Confirming(b, true, false), tidy);
    }
  }

  lemma CommitConfirmRun(s: State, t: nat, tx: Tx, tidy: bool)
    requires t !in s.txs && tx.Confirming? && tx.bookingLocked && tx.booking < |s.bookings|
    requires UsesDiscount(s.bookings[tx.booking]) ==> tx.userLocked
    requires Reachable(With(s, t, tx), tidy)
    ensures Reachable(ConfirmedState(s, tx.booking), tidy)
  {
    Take(With(s, t, tx), CommitConfirm(t), tidy);
    DropAfterSet(ConfirmedState(s, tx.booking), t, tx);
  }

  // ----- credits committed twice

  lemma NoReleases(s: State)
    ensures Releases(s, {}) == s
  {
    assert ReleasedRows(s.bookings, {}) == s.bookings;
    NoReversals(s.rewards, s.stats, 0);
  }

  lemma {:induction false} NoReversals(rewards: seq<Reward>, stats: map<nat, Stats>, i: nat)
    requires i <= |rewards|
    ensures ReverseFrom(rewards, stats, {}, i) == (rewards, stats)
    decreases |rewards| - i
  {
    if i < |rewards| { NoReversals(rewards, stats, i + 1); }
  }

  function BalanceRead(s: State, user: nat): (tx: Tx)
    ensures tx.Creating? && tx.user == user && tx.released == {}
  {
    Creating(user, true, false, None, {}, false, Some(Earned(s, user)), Some(Committed(s, user)))
  }

  lemma BalanceReadRun(s: State, user: nat)
    requires Reachable(s, false) && s.txs == map[]
    ensures Reachable(With(s, 0, BalanceRead(s, user)), false)
  {
    LockedRun(s, 0, user, false);
    BalanceRun(s, 0, UserLocked(user), false);
  }

  /** Spending the whole balance on a new booking. */
  lemma SpendRun(s: State, user: nat)
    requires Reachable(s, false) && s.txs == map[] && Earned(s, user) > Committed(s, user)
    ensures Reachable(Appended(s, user, None, None, Earned(s, user) - Committed(s, user)), false)
  {
    BalanceReadRun(s, user);
    var credits := Earned(s, user) - Committed(s, user);
    assert CreationAllowed(BalanceRead(s, user), None, None, credits);
    CommitCreateRun(s, 0, BalanceRead(s, user), None, None, credits, false);
    NoReleases(s);
  }

  const REFERRER: nat := 1
  const REFEREE: nat := 2

  function Row(user: nat, status: BookingStatus, payment: PaymentStatus, credits: real): Booking
  {
    Booking(Some(user), status, payment, NoReferral, None, credits, credits)
  }

  function ReferredRow(status: BookingStatus, payment: PaymentStatus, referral: ReferralStatus): Booking
  {
    Booking(Some(REFEREE), status, payment, referral, Some(REFERRER), 0.0, 0.0)
  }

  /** A referred booking is created with the discount. */
  lemma ReferralBooked() returns (s: State)
    ensures Reachable(s, false)
    ensures s == State([ReferredRow(Pending, Unpaid, Reserved)], [Reward(REFERRER, 0, 100.0, PendingReward)],
                       map[REFERRER := Stats(1, 100.0, 0.0)], {}, map[])
  {
    assert ValidRun(EMPTY, [], false) && After(EMPTY, []) == EMPTY;
    StaleListedRun(EMPTY, 0, REFEREE, false);
    assert StaleOf(EMPTY, REFEREE) == {};
    var tx := Listed(REFEREE, {});
    CheckClaimsRun(EMPTY, 0, tx, false);
    CommitCreateRun(EMPTY, 0, tx.(verified := true), Some(REFERRER), Some(100.0), 0.0, false);
    NoReleases(EMPTY);
    s := Appended(EMPTY, REFEREE, Some(REFERRER), Some(100.0), 0.0);
  }

  /** It is paid for, and its referrer earns a hundred. */
  lemma ReferrerHasEarned() returns (s: State)
    ensures Reachable(s, false)
    ensures s.bookings == [ReferredRow(Confirmed, Paid, Rewarded)] && s.txs == map[]
    ensures s.rewards == [Reward(REFERRER, 0, 100.0, Released)]
  {
    s := ReferralBooked();
    ConfirmRun(s, 0, 0, false);
    s := ConfirmedState(s, 0);
    Take(s, ReleaseReward(0), false);
    s := Do(s, ReleaseReward(0));
  }

  lemma Totals(s: State)
    requires |s.bookings| >= 1 && s.rewards == [Reward(REFERRER, 0, 100.0, Released)]
    ensures Earned(s, REFERRER) == 100.0
    ensures |s.bookings| == 1 ==> Committed(s, REFERRER) == CommittedBy(REFERRER)(s.bookings[0])
    ensures |s.bookings| == 2 ==>
      Committed(s, REFERRER) == CommittedBy(REFERRER)(s.bookings[0]) + CommittedBy(REFERRER)(s.bookings[1])
    ensures |s.bookings| == 3 ==>
      Committed(s, REFERRER) == CommittedBy(REFERRER)(s.bookings[0]) + CommittedBy(REFERRER)(s.bookings[1])
        + CommittedBy(REFERRER)(s.bookings[2])
  {
    var weight := CommittedBy(REFERRER);
    SumAppend([], s.rewards[0], EarnedBy(REFERRER));
    assert [] + [s.rewards[0]] == s.rewards;
    SumAppend([], s.bookings[0], weight);
    assert [] + [s.bookings[0]] == [s.bookings[0]];
    if |s.bookings| == 1 { assert s.bookings == [s.bookings[0]]; }
    if |s.bookings| >= 2 { SumAppend([s.bookings[0]], s.bookings[1], weight); }
    if |s.bookings| == 2 { assert s.bookings == [s.bookings[0]] + [s.bookings[1]]; }
    if |s.bookings| == 3 {
      SumAppend([s.bookings[0]] + [s.bookings[1]], s.bookings[2], weight);
      assert s.bookings == [s.bookings[0]] + [s.bookings[1]] + [s.bookings[2]];
    }
  }

  /** The referrer spends the hundred, the payment goes through and is then refunded in full. */
  lemma SpentAndRefunded() returns (s: State)
    ensures Reachable(s, false) && s.txs == map[]
    ensures s.bookings == [ReferredRow(Confirmed, Paid, Rewarded), Row(REFERRER, Confirmed, Refunded, 100.0)]
    ensures s.rewards == [Reward(REFERRER, 0, 100.0, Released)]
  {
    s := ReferrerHasEarned();
    Totals(s);
    SpendRun(s, REFERRER);
    s := Appended(s, REFERRER, None, None, 100.0);
    ConfirmRun(s, 0, 1, false);
    s := ConfirmedState(s, 1);
    Take(s, ReserveRefund(1), false);
    s := Do(s, ReserveRefund(1));
    Take(s, FinalizeRefund(1, Refunded), false);
    s := Do(s, FinalizeRefund(1, Refunded));
  }

  /**
    The balance is free again and spent on another booking; then the payment-failure path of the
    first attempt at last marks the refunded booking unpaid. Two hundred are committed, one earned.
   */
  lemma LateFailureOverspends() returns (s: State)
    ensures Reachable(s, false)
    ensures Committed(s, REFERRER) == 200.0 && Earned(s, REFERRER) == 100.0
  {
    s := SpentAndRefunded();
    Totals(s);
    SpendRun(s, REFERRER);
    s := Appended(s, REFERRER, None, None, 100.0);
    Take(s, MarkUnpaid(1), false);
    s := Do(s, MarkUnpaid(1));
    Totals(s);
  }
}
