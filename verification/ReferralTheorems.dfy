/** The main results about referral money, for every reachable state of the ledger. */
module ReferralTheorems {
  import opened Foundations
  import opened BookingResponse
  import opened ReferralLedger
  import opened ReferralCounters
  import opened ReferralInvariants

  // ----- credits

  /** What a creation has read about its user's balance is still on the safe side. */
  ghost predicate ReadsOk(s: State, tx: Tx)
  {
    tx.Creating? ==>
      && (tx.earned.Some? ==> tx.earned.value <= Earned(s, tx.user))
      && (tx.committed.Some? ==> Committed(s, tx.user) <= tx.committed.value)
  }

  ghost predicate CreditsOk(s: State)
  {
    && (forall user :: Committed(s, user) <= Earned(s, user))
    && (forall t :: t in s.txs ==> ReadsOk(s, s.txs[t]))
  }

  /** A change after which nobody has committed more, or earned less. */
  ghost predicate Eases(s: State, v: State)
  {
    forall user :: Committed(v, user) <= Committed(s, user) && Earned(v, user) >= Earned(s, user)
  }

  lemma EasingKeepsCredits(s: State, v: State)
    requires CreditsOk(s) && Eases(s, v)
    requires forall t :: t in v.txs ==> (t in s.txs && v.txs[t] == s.txs[t]) || ReadsOk(v, v.txs[t])
    ensures CreditsOk(v)
  {
    forall user ensures Committed(v, user) <= Earned(v, user) {
      assert Committed(s, user) <= Earned(s, user) && Committed(v, user) <= Committed(s, user);
    }
    forall t | t in v.txs ensures ReadsOk(v, v.txs[t]) {
      if t in s.txs && v.txs[t] == s.txs[t] { assert ReadsOk(s, s.txs[t]); }
    }
  }

  lemma RowChangeEases(s: State, b: nat, row: Booking)
    requires b < |s.bookings| && row.user == s.bookings[b].user && row.Commits() <= s.bookings[b].Commits()
    ensures Eases(s, SetBooking(s, b, row))
  {
    forall user ensures Committed(SetBooking(s, b, row), user) <= Committed(s, user) {
      SumUpdate(s.bookings, b, row, CommittedBy(user));
    }
  }

  lemma ReversalEases(s: State, ids: set<nat>)
    ensures Eases(s, WithRewardsReversed(s, ids))
    ensures WithRewardsReversed(s, ids).bookings == s.bookings
  {
    forall user ensures Earned(WithRewardsReversed(s, ids), user) == Earned(s, user) {
      ReversalKeepsEarned(s.rewards, s.stats, ids, user);
    }
  }

  lemma EasesTransitive(s: State, v: State, w: State)
    requires Eases(s, v) && Eases(v, w)
    ensures Eases(s, w)
  {
    forall user ensures Committed(w, user) <= Committed(s, user) && Earned(w, user) >= Earned(s, user) {
      assert Committed(v, user) <= Committed(s, user) && Earned(v, user) >= Earned(s, user);
    }
  }

  /** Confirmation moves a booking's credits from reserved to used: the committed total stays the same. */
  lemma ConfirmationKeepsTotal(s: State, t: nat, user: nat)
    requires Inv(s) && Enabled(s, CommitConfirm(t))
    ensures Committed(Do(s, CommitConfirm(t)), user) == Committed(s, user)
  {
    var b := s.txs[t].booking;
    assert TxOk(s, s.txs[t]) && RowOk(s.bookings[b]);
    SumUpdate(s.bookings, b, ConfirmedRow(s.bookings[b]), CommittedBy(user));
  }

  /** Marking a booking unpaid commits credits anew exactly when it is not tidy. */
  lemma MarkUnpaidIsSafeIff(s: State, b: nat, user: nat)
    requires Inv(s) && Enabled(s, MarkUnpaid(b)) && s.bookings[b].user == Some(user)
    ensures Committed(Do(s, MarkUnpaid(b)), user) == Committed(s, user) <==> TidyMark(s.bookings[b])
  {
    assert RowOk(s.bookings[b]);
    SumUpdate(s.bookings, b, s.bookings[b].(payment := Unpaid), CommittedBy(user));
  }

  /** No such change raises what the row commits. */
  lemma RowStepsCommitLess(s: State, step: Step)
    requires Inv(s) && Allowed(s, step, true)
    requires step.ReserveRefund? || step.FinalizeRefund? || step.MarkUnpaid? || step.Activate? || step.Complete?
    ensures Do(s, step) == SetBooking(s, step.booking, Do(s, step).bookings[step.booking])
    ensures Do(s, step).bookings[step.booking].user == s.bookings[step.booking].user
    ensures Do(s, step).bookings[step.booking].Commits() <= s.bookings[step.booking].Commits()
  {
    assert RowOk(s.bookings[step.booking]);
  }

  lemma RowStepsEase(s: State, step: Step)
    requires Inv(s) && Allowed(s, step, true)
    requires step.ReserveRefund? || step.FinalizeRefund? || step.MarkUnpaid? || step.Activate? || step.Complete?
    ensures Eases(s, Do(s, step)) && Do(s, step).txs == s.txs
  {
    RowStepsCommitLess(s, step);
    RowChangeEases(s, step.booking, Do(s, step).bookings[step.booking]);
  }

  lemma ClosingStepsEase(s: State, step: Step)
    requires Inv(s) && Enabled(s, step) && (step.Expire? || step.Cancel?)
    ensures Eases(s, Do(s, step))
  {
    var b := step.booking;
    assert RowOk(s.bookings[b]);
    var row := if step.Expire? then ExpiredRow(s.bookings[b]) else CancelledRow(s.bookings[b]);
    RowChangeEases(s, b, row);
    ReversalEases(SetBooking(s, b, row), {b});
    EasesTransitive(s, SetBooking(s, b, row), WithRewardsReversed(SetBooking(s, b, row), {b}));
  }

  lemma ReleaseRewardEases(s: State, r: nat)
    requires Inv(s) && Enabled(s, ReleaseReward(r))
    ensures Eases(s, Do(s, ReleaseReward(r)))
  {
    var b := s.rewards[r].booking;
    RowChangeEases(s, b, s.bookings[b].(referral := Rewarded));
    forall user ensures Earned(RewardReleased(s, r), user) >= Earned(s, user) {
      SumUpdate(s.rewards, r, s.rewards[r].(status := Released), EarnedBy(user));
    }
    forall user ensures Committed(RewardReleased(s, r), user) <= Committed(s, user) {
      assert Committed(SetBooking(s, b, s.bookings[b].(referral := Rewarded)), user) <= Committed(s, user);
    }
  }

  lemma ReleasesEase(s: State, ids: set<nat>)
    ensures Eases(s, Releases(s, ids))
  {
    var v := s.(bookings := ReleasedRows(s.bookings, ids));
    forall user ensures Committed(v, user) == Committed(s, user) {
      SumPointwise(v.bookings, s.bookings, CommittedBy(user));
    }
    ReversalEases(v, ids);
    EasesTransitive(s, v, WithRewardsReversed(v, ids));
  }

  /** A new booking commits its own credits for its own user and nothing else. */
  lemma AppendedTotals(s: State, user: nat, discount: Option<nat>, rewardAmount: Option<real>, credits: real, other: nat)
    ensures Committed(Appended(s, user, discount, rewardAmount, credits), other)
         == Committed(s, other) + (if other == user then credits else 0.0)
    ensures Earned(Appended(s, user, discount, rewardAmount, credits), other) == Earned(s, other)
  {
    var v := Appended(s, user, discount, rewardAmount, credits);
    SumAppend(s.bookings, v.bookings[|s.bookings|], CommittedBy(other));
    if discount.Some? && rewardAmount.Some? {
      SumAppend(s.rewards, Reward(discount.value, |s.bookings|, rewardAmount.value, PendingReward), EarnedBy(other));
    }
  }

  lemma CommitCreateTotals(s: State, t: nat, discount: Option<nat>, rewardAmount: Option<real>, credits: real, other: nat)
    requires Enabled(s, CommitCreate(t, discount, rewardAmount, credits))
    ensures var v := Do(s, CommitCreate(t, discount, rewardAmount, credits));
      && Committed(v, other) <= Committed(s, other) + (if other == s.txs[t].user then credits else 0.0)
      && Earned(v, other) >= Earned(s, other)
  {
    var released := Releases(s, s.txs[t].released);
    ReleasesEase(s, s.txs[t].released);
    AppendedTotals(released, s.txs[t].user, discount, rewardAmount, credits, other);
    assert Committed(released, other) <= Committed(s, other) && Earned(released, other) >= Earned(s, other);
  }

  lemma CommitCreateKeepsCredits(s: State, t: nat, discount: Option<nat>, rewardAmount: Option<real>, credits: real)
    requires Inv(s) && CreditsOk(s) && Enabled(s, CommitCreate(t, discount, rewardAmount, credits))
    ensures CreditsOk(Do(s, CommitCreate(t, discount, rewardAmount, credits)))
  {
    var v := Do(s, CommitCreate(t, discount, rewardAmount, credits));
    assert TxOk(s, s.txs[t]) && ReadsOk(s, s.txs[t]);
    forall user ensures Committed(v, user) <= Earned(v, user) {
      CommitCreateTotals(s, t, discount, rewardAmount, credits, user);
      assert Committed(s, user) <= Earned(s, user);
    }
    forall u | u in v.txs ensures ReadsOk(v, v.txs[u]) {
      assert TxOk(s, s.txs[u]) && ReadsOk(s, s.txs[u]) && !SharesLock(s, s.txs[t], s.txs[u]);
      if s.txs[u].Creating? {
        CommitCreateTotals(s, t, discount, rewardAmount, credits, s.txs[u].user);
      }
    }
  }

  predicate Quiet(step: Step)
  {
    || step.BeginCreate? || step.LockUser? || step.CheckDiscountUnused? || step.FindStale? || step.ReleaseOne?
    || step.CheckClaims? || step.ReadEarned? || step.ReadCommitted? || step.BeginConfirm? || step.LockBooking?
    || step.LockConfirmedUser? || step.Abort?
  }

  /** A quiet step leaves the tables alone, and every transaction but its own. */
  lemma QuietStepIsLocal(s: State, step: Step)
    requires Enabled(s, step) && Quiet(step)
    ensures Do(s, step).bookings == s.bookings && Do(s, step).rewards == s.rewards
    ensures forall t :: t in Do(s, step).txs && t != step.t ==> t in s.txs && Do(s, step).txs[t] == s.txs[t]
  {}

  lemma OwnReadsOk(s: State, step: Step)
    requires CreditsOk(s) && Enabled(s, step) && Quiet(step) && step.t in Do(s, step).txs
    ensures ReadsOk(s, Do(s, step).txs[step.t])
  {
    if step.t in s.txs { assert ReadsOk(s, s.txs[step.t]); }
  }

  /** Steps of a transaction that commit nothing. */
  lemma QuietStepKeepsCredits(s: State, step: Step)
    requires CreditsOk(s) && Enabled(s, step) && Quiet(step)
    ensures CreditsOk(Do(s, step))
  {
    var v := Do(s, step);
    QuietStepIsLocal(s, step);
    if step.t in v.txs { OwnReadsOk(s, step); }
    forall t | t in v.txs ensures ReadsOk(v, v.txs[t]) {
      if t != step.t { assert ReadsOk(s, s.txs[t]); }
    }
    forall user ensures Committed(v, user) <= Earned(v, user) { assert Committed(s, user) <= Earned(s, user); }
  }

  lemma GuestKeepsCredits(s: State)
    requires CreditsOk(s)
    ensures CreditsOk(Do(s, CreateAsGuest))
  {
    var row := Booking(None, Pending, Unpaid, NoReferral, None, 0.0, 0.0);
    forall user ensures Committed(Do(s, CreateAsGuest), user) == Committed(s, user) {
      SumAppend(s.bookings, row, CommittedBy(user));
    }
    EasingKeepsCredits(s, Do(s, CreateAsGuest));
  }

  lemma ConfirmKeepsCredits(s: State, t: nat)
    requires Inv(s) && CreditsOk(s) && Enabled(s, CommitConfirm(t))
    ensures CreditsOk(Do(s, CommitConfirm(t)))
  {
    var v := Do(s, CommitConfirm(t));
    forall user ensures Committed(v, user) == Committed(s, user) { ConfirmationKeepsTotal(s, t, user); }
    EasingKeepsCredits(s, v);
  }

  lemma EasingStepsKeepCredits(s: State, step: Step)
    requires Inv(s) && CreditsOk(s) && Enabled(s, step) && (step.Expire? || step.Cancel? || step.ReleaseReward?)
    ensures CreditsOk(Do(s, step))
  {
    if step.ReleaseReward? { ReleaseRewardEases(s, step.reward); } else { ClosingStepsEase(s, step); }
    EasingKeepsCredits(s, Do(s, step));
  }

  lemma StepKeepsCredits(s: State, step: Step)
    requires Inv(s) && CreditsOk(s) && Allowed(s, step, true)
    ensures CreditsOk(Do(s, step))
  {
    if step.CommitCreate? {
      CommitCreateKeepsCredits(s, step.t, step.discount, step.rewardAmount, step.credits);
    } else if step.CreateAsGuest? {
      GuestKeepsCredits(s);
    } else if step.CommitConfirm? {
      ConfirmKeepsCredits(s, step.t);
    } else if step.Expire? || step.Cancel? || step.ReleaseReward? {
      EasingStepsKeepCredits(s, step);
    } else {
      OtherStepsKeepCredits(s, step);
    }
  }

  lemma OtherStepsKeepCredits(s: State, step: Step)
    requires Inv(s) && CreditsOk(s) && Allowed(s, step, true)
    requires !step.CommitCreate? && !step.CreateAsGuest? && !step.CommitConfirm? && !step.ReleaseReward? && !step.Expire? && !step.Cancel?
    ensures CreditsOk(Do(s, step))
  {
    if step.ReserveRefund? || step.FinalizeRefund? || step.MarkUnpaid? || step.Activate? || step.Complete? {
      RowStepsEase(s, step);
      EasingKeepsCredits(s, Do(s, step));
    } else {
      QuietStepKeepsCredits(s, step);
    }
  }

  // ----- every run

  lemma EmptyIsFine()
    ensures Inv(EMPTY) && CreditsOk(EMPTY)
  {
    assert forall user :: RowAgrees([], map[], user);
    forall user ensures Committed(EMPTY, user) <= Earned(EMPTY, user) {}
  }

  lemma {:induction false} RunKeepsInv(s: State, run: seq<Step>, tidy: bool)
    requires Inv(s) && ValidRun(s, run, tidy)
    ensures Inv(After(s, run))
    decreases |run|
  {
    if run != [] {
      StepKeepsInv(s, run[0]);
      RunKeepsInv(Do(s, run[0]), run[1..], tidy);
    }
  }

  lemma {:induction false} RunKeepsCredits(s: State, run: seq<Step>)
    requires Inv(s) && CreditsOk(s) && ValidRun(s, run, true)
    ensures CreditsOk(After(s, run))
    decreases |run|
  {
    if run != [] {
      StepKeepsInv(s, run[0]);
      StepKeepsCredits(s, run[0]);
      RunKeepsCredits(Do(s, run[0]), run[1..]);
    }
  }

  lemma ReachableInv(s: State, tidy: bool)
    requires Reachable(s, tidy)
    ensures Inv(s)
    ensures tidy ==> CreditsOk(s)
  {
    var run :| ValidRun(EMPTY, run, tidy) && After(EMPTY, run) == s;
    EmptyIsFine();
    RunKeepsInv(EMPTY, run, tidy);
    if tidy { RunKeepsCredits(EMPTY, run); }
  }

  // ----- what holds of every run

  /** No user has at any time committed more credits than they have earned. */
  lemma CreditsAreNeverOverspent(s: State, user: nat)
    requires Reachable(s, true)
    ensures Committed(s, user) <= Earned(s, user)
  {
    ReachableInv(s, true);
  }

  /** Of a user's bookings that may still run, at most one has the discount reserved, applied or rewarded. */
  lemma OneDiscountAtATime(s: State, tidy: bool, a: nat, b: nat)
    requires Reachable(s, tidy) && a < |s.bookings| && b < |s.bookings| && a != b
    requires s.bookings[a].user.Some? && s.bookings[a].user == s.bookings[b].user
    requires s.bookings[a].Open() && (s.bookings[a].referral.Reserved? || s.bookings[a].Settled())
    ensures !(s.bookings[b].Open() && (s.bookings[b].referral.Reserved? || s.bookings[b].Settled()))
  {
    ReachableInv(s, tidy);
  }

  /** Settled stays settled, whatever becomes of the booking. */
  lemma SettledForever(s: State, step: Step, b: nat)
    requires Inv(s) && Enabled(s, step) && b < |s.bookings| && s.bookings[b].Settled()
    ensures b < |Do(s, step).bookings| && Do(s, step).bookings[b].Settled()
    ensures Do(s, step).bookings[b].user == s.bookings[b].user
  {
    assert RowOk(s.bookings[b]);
    if step.CommitCreate? || step.CommitConfirm? || step.LockBooking? { assert TxOk(s, s.txs[step.t]); }
  }

  lemma {:induction false} SettledThroughRun(s: State, run: seq<Step>, tidy: bool, b: nat)
    requires Inv(s) && ValidRun(s, run, tidy) && b < |s.bookings| && s.bookings[b].Settled()
    ensures b < |After(s, run).bookings| && After(s, run).bookings[b].Settled()
    ensures After(s, run).bookings[b].user == s.bookings[b].user
    decreases |run|
  {
    if run != [] {
      StepKeepsInv(s, run[0]);
      SettledForever(s, run[0], b);
      SettledThroughRun(Do(s, run[0]), run[1..], tidy, b);
    }
  }

  /** Over a whole run at most one booking of a user ever becomes APPLIED, even if the first is cancelled. */
  lemma DiscountIsUsedOnceInARun(s: State, run: seq<Step>, tidy: bool, a: nat, b: nat)
    requires Reachable(s, tidy) && ValidRun(s, run, tidy)
    requires a < |s.bookings| && s.bookings[a].Settled()
    requires b < |After(s, run).bookings| && After(s, run).bookings[b].Settled()
    requires After(s, run).bookings[b].user == s.bookings[a].user
    ensures a == b
  {
    ReachableInv(s, tidy);
    RunKeepsInv(s, run, tidy);
    SettledThroughRun(s, run, tidy, a);
    assert RowOk(After(s, run).bookings[a]) && RowOk(After(s, run).bookings[b]);
  }

  /** No state has two bookings of one user that used the discount, and its flag says so. */
  lemma DiscountIsUsedOnce(s: State, tidy: bool, a: nat, b: nat)
    requires Reachable(s, tidy) && a < |s.bookings| && b < |s.bookings|
    requires s.bookings[a].user == s.bookings[b].user && s.bookings[a].Settled() && s.bookings[b].Settled()
    ensures a == b
    ensures s.bookings[a].user.Some? && s.bookings[a].user.value in s.used
  {
    ReachableInv(s, tidy);
    assert RowOk(s.bookings[a]) && RowOk(s.bookings[b]);
  }

  /** Every referrer's counters are the sums of their rewards, and no floor has ever taken effect. */
  lemma CountersAreConserved(s: State, tidy: bool, user: nat)
    requires Reachable(s, tidy) && user in s.stats
    ensures s.stats[user].pending == Sum(s.rewards, PendingFor(user)) >= 0.0
    ensures s.stats[user].referrals as real == Sum(s.rewards, CountedFor(user)) >= 0.0
    ensures s.stats[user].granted == Earned(s, user)
  {
    ReachableInv(s, tidy);
    assert RowAgrees(s.rewards, s.stats, user);
    SumNonNegative(s.rewards, PendingFor(user));
    SumNonNegative(s.rewards, CountedFor(user));
  }

  /** The last check for another claim never fails: a claim that cannot be released shows in the user's flag first. */
  lemma ClaimCheckNeverFails(s: State, tidy: bool, t: nat)
    requires Reachable(s, tidy) && Enabled(s, CheckClaims(t))
    ensures !SeesClaim(s, s.txs[t])
  {
    ReachableInv(s, tidy);
    var tx := s.txs[t];
    assert TxOk(s, tx);
    forall b | 0 <= b < |s.bookings| && b !in tx.released && s.bookings[b].user == Some(tx.user) ensures !s.bookings[b].Claims() {
      assert RowOk(s.bookings[b]);
    }
  }
}
