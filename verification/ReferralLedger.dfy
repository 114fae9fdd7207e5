/**
  Referral money: the one-time discount, the credits paid out for referrals and the counters kept
  for each referrer.

  Creations and confirmations are transactions of several statements; they hold the user's row and
  booking rows from the moment they lock them to their commit, and see only committed rows and their
  own releases. All other writers are single guarded statements, or transactions whose every table
  access follows one row lock, and are one step each. Counters are updated within the step that
  makes them necessary; `ReferralCounterRaces` takes their statements apart. Bookings and rewards are
  never deleted; their ids are their positions.
 */
module ReferralLedger {
  import opened Foundations
  import opened BookingResponse

  datatype PaymentStatus = Unpaid | Paid | RefundProcessing | Refunded | PartiallyRefunded | RefundFailed

  datatype ReferralStatus = NoReferral | Reserved | Applied | Rewarded | Reversed

  datatype Booking = Booking(
    user: Option<nat>,
    status: BookingStatus,
    payment: PaymentStatus,
    referral: ReferralStatus,
    referrer: Option<nat>,
    creditsUsed: real,
    creditsReserved: real)
  {
    predicate Open() { status.Pending? || status.Confirmed? || status.Active? }

    /** A discount that has been used for good. */
    predicate Settled() { referral.Applied? || referral.Rewarded? }

    /** An unpaid reservation of the discount, which a new attempt releases. */
    predicate Stale() { referral.Reserved? && status.Pending? && payment.Unpaid? }

    /** `buildExistingDiscountClaimFilter`. */
    predicate Claims() { Open() && (Settled() || (referral.Reserved? && !payment.Unpaid?)) }

    /** What the credit query counts against the balance. */
    function Commits(): real
    {
      if payment.Paid? then creditsUsed
      else if payment.Unpaid? && !status.Cancelled? then creditsReserved
      else 0.0
    }
  }

  datatype RewardStatus = PendingReward | Released | ReversedReward

  datatype Reward = Reward(referrer: nat, booking: nat, amount: real, status: RewardStatus)

  /** `totalReferrals`, `totalRewardsPending`, `totalRewardsGranted`. */
  datatype Stats = Stats(referrals: int, pending: real, granted: real)

  datatype Tx =
    | Creating(
        user: nat,
        locked: bool,
        unused: bool,
        stale: Option<set<nat>>,
        released: set<nat>,
        verified: bool,
        earned: Option<real>,
        committed: Option<real>)
    | Confirming(booking: nat, bookingLocked: bool, userLocked: bool)

  datatype State = State(
    bookings: seq<Booking>,
    rewards: seq<Reward>,
    stats: map<nat, Stats>,
    used: set<nat>,
    txs: map<nat, Tx>)

  /**
    `MarkUnpaid` is the compensation after a payment request that threw. It may be enabled at any
    time: a request whose answer was lost can still have been accepted by the provider, and nothing in
    the code keeps a payment made on it from being confirmed and refunded before the compensation runs.
   */
  datatype Step =
    | BeginCreate(t: nat, user: nat)
    | LockUser(t: nat)
    | CheckDiscountUnused(t: nat)
    | FindStale(t: nat)
    | ReleaseOne(t: nat, id: nat)
    | CheckClaims(t: nat)
    | ReadEarned(t: nat)
    | ReadCommitted(t: nat)
    | CommitCreate(t: nat, discount: Option<nat>, rewardAmount: Option<real>, credits: real)
    | CreateAsGuest
    | BeginConfirm(t: nat, booking: nat)
    | LockBooking(t: nat)
    | LockConfirmedUser(t: nat)
    | CommitConfirm(t: nat)
    | Abort(t: nat)
    | Expire(booking: nat)
    | Cancel(booking: nat)
    | ReserveRefund(booking: nat)
    | FinalizeRefund(booking: nat, outcome: PaymentStatus)
    | MarkUnpaid(booking: nat)
    | Activate(booking: nat)
    | Complete(booking: nat)
    | ReleaseReward(reward: nat)

  // ----- tables

  function EarnedBy(user: nat): Reward -> real
  {
    (r: Reward) => if r.referrer == user && r.status.Released? then r.amount else 0.0
  }

  function CommittedBy(user: nat): Booking -> real
  {
    (b: Booking) => if b.user == Some(user) then b.Commits() else 0.0
  }

  function Earned(s: State, user: nat): real { Sum(s.rewards, EarnedBy(user)) }

  function Committed(s: State, user: nat): real { Sum(s.bookings, CommittedBy(user)) }

  function PendingFor(user: nat): Reward -> real
  {
    (r: Reward) => if r.referrer == user && r.status.PendingReward? then r.amount else 0.0
  }

  /** Referrals that are pending or paid out. */
  function CountedFor(user: nat): Reward -> real
  {
    (r: Reward) => if r.referrer == user && !r.status.ReversedReward? then 1.0 else 0.0
  }

  function ReleasedReservation(b: Booking): Booking
  {
    b.(referral := Reversed, referrer := None)
  }

  function FloorAtZero(x: real): real { if x < 0.0 then 0.0 else x }

  function MaxInt(a: int, b: int): int { if a < b then b else a }

  /** One referrer's counters after a pending reward of theirs is reversed; no row, no change. */
  function Decrement(stats: map<nat, Stats>, referrer: nat, count: int, amount: real): map<nat, Stats>
  {
    if referrer !in stats then stats
    else
      var row := stats[referrer];
      stats[referrer := row.(referrals := MaxInt(0, row.referrals - count), pending := FloorAtZero(row.pending - amount))]
  }

  /** `createReferralRewardIfEligible`: the upsert of the counters. */
  function Increment(stats: map<nat, Stats>, referrer: nat, amount: real): map<nat, Stats>
  {
    if referrer !in stats then stats[referrer := Stats(1, amount, 0.0)]
    else
      var row := stats[referrer];
      stats[referrer := row.(referrals := row.referrals + 1, pending := row.pending + amount)]
  }

  /** Reversing the pending rewards of some bookings, reward by reward, with their referrers' counters. */
  function ReverseFrom(rewards: seq<Reward>, stats: map<nat, Stats>, ids: set<nat>, i: nat): (r: (seq<Reward>, map<nat, Stats>))
    requires i <= |rewards|
    ensures |r.0| == |rewards|
    decreases |rewards| - i
  {
    if i == |rewards| then (rewards, stats)
    else if rewards[i].booking in ids && rewards[i].status.PendingReward? then
      ReverseFrom(rewards[i := rewards[i].(status := ReversedReward)],
                  Decrement(stats, rewards[i].referrer, 1, rewards[i].amount), ids, i + 1)
    else ReverseFrom(rewards, stats, ids, i + 1)
  }

  function WithRewardsReversed(s: State, ids: set<nat>): State
  {
    var r := ReverseFrom(s.rewards, s.stats, ids, 0);
    s.(rewards := r.0, stats := r.1)
  }

  function SetBooking(s: State, b: nat, row: Booking): State
    requires b < |s.bookings|
  {
    s.(bookings := s.bookings[b := row])
  }

  function SetTx(s: State, t: nat, tx: Tx): State { s.(txs := s.txs[t := tx]) }

  function DropTx(s: State, t: nat): State { s.(txs := s.txs - {t}) }

  // ----- locks

  predicate HoldsUser(s: State, tx: Tx, user: nat)
  {
    match tx
    case Creating(u, locked, _, _, _, _, _, _) => locked && u == user
    case Confirming(b, _, userLocked) => userLocked && b < |s.bookings| && s.bookings[b].user == Some(user)
  }

  predicate HoldsBooking(tx: Tx, b: nat)
  {
    match tx
    case Creating(_, _, _, _, released, _, _, _) => b in released
    case Confirming(id, bookingLocked, _) => bookingLocked && id == b
  }

  /** Nobody but `t` holds the user's row. */
  predicate UserFree(s: State, t: nat, user: nat)
  {
    forall u :: u in s.txs && u != t ==> !HoldsUser(s, s.txs[u], user)
  }

  predicate BookingFree(s: State, t: nat, b: nat)
  {
    forall u :: u in s.txs && u != t ==> !HoldsBooking(s.txs[u], b)
  }

  predicate Unheld(s: State, b: nat)
  {
    b < |s.bookings| && forall u :: u in s.txs ==> !HoldsBooking(s.txs[u], b)
  }

  // ----- steps

  /** Confirmation uses the discount only of a reservation that knows its user and its referrer. */
  predicate UsesDiscount(b: Booking) { b.referral.Reserved? && b.user.Some? && b.referrer.Some? }

  function StaleOf(s: State, user: nat): set<nat>
  {
    set b | 0 <= b < |s.bookings| && s.bookings[b].user == Some(user) && s.bookings[b].Stale()
  }

  /** A claim on the discount as a creation sees it, its own releases included. */
  predicate SeesClaim(s: State, tx: Tx)
    requires tx.Creating?
  {
    exists b :: 0 <= b < |s.bookings| && b !in tx.released && s.bookings[b].user == Some(tx.user) && s.bookings[b].Claims()
  }

  predicate CreationAllowed(tx: Tx, discount: Option<nat>, rewardAmount: Option<real>, credits: real)
    requires tx.Creating?
  {
    && (discount.Some? ==> tx.verified)
    && (rewardAmount.Some? ==> discount.Some? && rewardAmount.value > 0.0)
    && credits >= 0.0
    && (credits > 0.0 ==> tx.earned.Some? && tx.committed.Some? && credits <= FloorAtZero(tx.earned.value - tx.committed.value))
  }

  ghost predicate Enabled(s: State, step: Step)
  {
    match step
    case BeginCreate(t, user) => t !in s.txs
    case LockUser(t) => t in s.txs && s.txs[t].Creating? && UserFree(s, t, s.txs[t].user)
    case CheckDiscountUnused(t) => t in s.txs && s.txs[t].Creating? && s.txs[t].locked
    case FindStale(t) => t in s.txs && s.txs[t].Creating? && s.txs[t].unused && s.txs[t].stale.None?
    case ReleaseOne(t, id) =>
      && t in s.txs && s.txs[t].Creating? && s.txs[t].stale.Some? && id in s.txs[t].stale.value
      && id < |s.bookings| && BookingFree(s, t, id)
    case CheckClaims(t) => t in s.txs && s.txs[t].Creating? && s.txs[t].stale == Some({})
    case ReadEarned(t) => t in s.txs && s.txs[t].Creating? && s.txs[t].locked
    case ReadCommitted(t) => t in s.txs && s.txs[t].Creating? && s.txs[t].locked
    case CommitCreate(t, discount, rewardAmount, credits) =>
      t in s.txs && s.txs[t].Creating? && CreationAllowed(s.txs[t], discount, rewardAmount, credits)
    case CreateAsGuest => true
    case BeginConfirm(t, booking) => t !in s.txs && booking < |s.bookings|
    case LockBooking(t) => t in s.txs && s.txs[t].Confirming? && BookingFree(s, t, s.txs[t].booking)
    case LockConfirmedUser(t) =>
      && t in s.txs && s.txs[t].Confirming? && s.txs[t].bookingLocked
      && s.txs[t].booking < |s.bookings| && UsesDiscount(s.bookings[s.txs[t].booking])
      && UserFree(s, t, s.bookings[s.txs[t].booking].user.value)
    case CommitConfirm(t) =>
      && t in s.txs && s.txs[t].Confirming? && s.txs[t].bookingLocked && s.txs[t].booking < |s.bookings|
      && (UsesDiscount(s.bookings[s.txs[t].booking]) ==> s.txs[t].userLocked)
    case Abort(t) => t in s.txs
    case Expire(b) => Unheld(s, b) && s.bookings[b].status.Pending? && s.bookings[b].payment.Unpaid?
    case Cancel(b) => Unheld(s, b) && s.bookings[b].status.Confirmed? && s.bookings[b].payment.Paid?
    case ReserveRefund(b) => Unheld(s, b) && (s.bookings[b].payment.Paid? || s.bookings[b].payment.RefundProcessing?)
    case FinalizeRefund(b, outcome) =>
      && Unheld(s, b) && (s.bookings[b].payment.Paid? || s.bookings[b].payment.RefundProcessing?)
      && (outcome.Refunded? || outcome.PartiallyRefunded? || outcome.RefundFailed?)
    case MarkUnpaid(b) => Unheld(s, b) && !s.bookings[b].payment.Paid?
    case Activate(b) => Unheld(s, b) && s.bookings[b].status.Confirmed?
    case Complete(b) => Unheld(s, b) && s.bookings[b].status.Active?
    case ReleaseReward(r) =>
      && r < |s.rewards| && s.rewards[r].status.PendingReward?
      && Unheld(s, s.rewards[r].booking) && s.bookings[s.rewards[r].booking].Settled()
      && s.bookings[s.rewards[r].booking].user.Some?
  }

  ghost function Do(s: State, step: Step): State
    requires Enabled(s, step)
  {
    match step
    case BeginCreate(t, user) => SetTx(s, t, Creating(user, false, false, None, {}, false, None, None))
    case LockUser(t) => SetTx(s, t, s.txs[t].(locked := true))
    case CheckDiscountUnused(t) =>
      if s.txs[t].user in s.used then DropTx(s, t) else SetTx(s, t, s.txs[t].(unused := true))
    case FindStale(t) => SetTx(s, t, s.txs[t].(stale := Some(StaleOf(s, s.txs[t].user))))
    case ReleaseOne(t, id) => SetTx(s, t, Releasing(s, s.txs[t], id))
    case CheckClaims(t) => if SeesClaim(s, s.txs[t]) then DropTx(s, t) else SetTx(s, t, s.txs[t].(verified := true))
    case ReadEarned(t) => SetTx(s, t, s.txs[t].(earned := Some(Earned(s, s.txs[t].user))))
    case ReadCommitted(t) => SetTx(s, t, s.txs[t].(committed := Some(Committed(s, s.txs[t].user))))
    case CommitCreate(t, discount, rewardAmount, credits) =>
      DropTx(Appended(Releases(s, s.txs[t].released), s.txs[t].user, discount, rewardAmount, credits), t)
    case CreateAsGuest => s.(bookings := s.bookings + [Booking(None, Pending, Unpaid, NoReferral, None, 0.0, 0.0)])
    case BeginConfirm(t, booking) => SetTx(s, t, Confirming(booking, false, false))
    case LockBooking(t) =>
      if s.txs[t].booking < |s.bookings| && s.bookings[s.txs[t].booking].status.Pending?
      then SetTx(s, t, s.txs[t].(bookingLocked := true)) else DropTx(s, t)
    case LockConfirmedUser(t) => SetTx(s, t, s.txs[t].(userLocked := true))
    case CommitConfirm(t) => DropTx(ConfirmedState(s, s.txs[t].booking), t)
    case Abort(t) => DropTx(s, t)
    case Expire(b) => Expired(s, b)
    case Cancel(b) => WithRewardsReversed(SetBooking(s, b, CancelledRow(s.bookings[b])), {b})
    case ReserveRefund(b) => SetBooking(s, b, s.bookings[b].(payment := RefundProcessing))
    case FinalizeRefund(b, outcome) => SetBooking(s, b, s.bookings[b].(payment := outcome))
    case MarkUnpaid(b) => SetBooking(s, b, s.bookings[b].(payment := Unpaid))
    case Activate(b) => SetBooking(s, b, s.bookings[b].(status := Active))
    case Complete(b) => SetBooking(s, b, s.bookings[b].(status := BookingStatus.Completed))
    case ReleaseReward(r) => RewardReleased(s, r)
  }

  /** The release is conditional: a row that has moved on since it was listed is left alone. */
  function Releasing(s: State, tx: Tx, id: nat): Tx
    requires tx.Creating? && tx.stale.Some? && id < |s.bookings|
  {
    if s.bookings[id].Stale() then tx.(stale := Some(tx.stale.value - {id}), released := tx.released + {id})
    else tx.(stale := Some(tx.stale.value - {id}))
  }

  function ReleasedRows(bookings: seq<Booking>, ids: set<nat>): seq<Booking>
  {
    seq(|bookings|, b requires 0 <= b < |bookings| => if b in ids then ReleasedReservation(bookings[b]) else bookings[b])
  }

  function Releases(s: State, ids: set<nat>): State
  {
    WithRewardsReversed(s.(bookings := ReleasedRows(s.bookings, ids)), ids)
  }

  /** The new booking, the pending reward of its referrer and the referrer's counters. */
  function Appended(s: State, user: nat, discount: Option<nat>, rewardAmount: Option<real>, credits: real): State
  {
    var row := Booking(Some(user), Pending, Unpaid, if discount.Some? then Reserved else NoReferral, discount, credits, credits);
    var t := s.(bookings := s.bookings + [row]);
    if discount.None? || rewardAmount.None? then t
    else t.(rewards := t.rewards + [Reward(discount.value, |s.bookings|, rewardAmount.value, PendingReward)],
            stats := Increment(t.stats, discount.value, rewardAmount.value))
  }

  function ConfirmedRow(b: Booking): Booking
  {
    b.(status := Confirmed, payment := Paid, referral := if UsesDiscount(b) then Applied else b.referral)
  }

  function ConfirmedState(s: State, b: nat): State
    requires b < |s.bookings|
  {
    SetBooking(s, b, ConfirmedRow(s.bookings[b])).(
      used := if UsesDiscount(s.bookings[b]) then s.used + {s.bookings[b].user.value} else s.used)
  }

  function CancelledRow(b: Booking): Booking
  {
    b.(status := BookingStatus.Cancelled, payment := RefundProcessing, creditsUsed := 0.0, creditsReserved := 0.0)
  }

  function ExpiredRow(b: Booking): Booking
  {
    (if b.Stale() then ReleasedReservation(b) else b).(status := BookingStatus.Cancelled, creditsUsed := 0.0, creditsReserved := 0.0)
  }

  function Expired(s: State, b: nat): State
    requires b < |s.bookings|
  {
    var t := SetBooking(s, b, ExpiredRow(s.bookings[b]));
    if s.bookings[b].Stale() then WithRewardsReversed(t, {b}) else t
  }

  function GrantStats(stats: map<nat, Stats>, referrer: nat, amount: real): map<nat, Stats>
  {
    if referrer !in stats then stats[referrer := Stats(1, 0.0, amount)]
    else
      var row := stats[referrer];
      stats[referrer := row.(pending := FloorAtZero(row.pending - amount), granted := row.granted + amount)]
  }

  function RewardReleased(s: State, r: nat): State
    requires r < |s.rewards| && s.rewards[r].booking < |s.bookings| && s.bookings[s.rewards[r].booking].user.Some?
  {
    var reward := s.rewards[r];
    s.(rewards := s.rewards[r := reward.(status := Released)],
       bookings := s.bookings[reward.booking := s.bookings[reward.booking].(referral := Rewarded)],
       used := s.used + {s.bookings[reward.booking].user.value},
       stats := GrantStats(s.stats, reward.referrer, reward.amount))
  }

  // ----- runs

  /** Marking a booking unpaid is tidy unless a refund has taken its credits out of the balance before. */
  predicate TidyMark(b: Booking)
  {
    b.payment.Paid? || b.payment.Unpaid? || b.status.Cancelled? || b.creditsReserved == 0.0
  }

  ghost predicate Allowed(s: State, step: Step, tidy: bool)
  {
    Enabled(s, step) && (tidy && step.MarkUnpaid? ==> TidyMark(s.bookings[step.booking]))
  }

  ghost predicate ValidRun(s: State, run: seq<Step>, tidy: bool)
    decreases |run|
  {
    run != [] ==> Allowed(s, run[0], tidy) && ValidRun(Do(s, run[0]), run[1..], tidy)
  }

  ghost function After(s: State, run: seq<Step>): State
    decreases |run|
  {
    if run == [] || !Enabled(s, run[0]) then s else After(Do(s, run[0]), run[1..])
  }

  const EMPTY: State := State([], [], map[], {}, map[])

  ghost predicate Reachable(s: State, tidy: bool)
  {
    exists run :: ValidRun(EMPTY, run, tidy) && After(EMPTY, run) == s
  }
}
