/**
  The referral counters statement by statement. A transaction changes rewards, then reads each
  referrer's row and writes it back in a second statement; between the two, other transactions read,
  write and commit. Readers see committed rows and their own writes, a written row stays locked until
  its transaction ends, and only increments happen within one statement.

  What is proved holds for any number of transactions, each with any number of reversals, pay-outs
  and creations. Runs are `current` if every write finds the row as it was read.
 */
module ReferralCounterRaces {
  import opened Foundations
  import opened ReferralLedger
  import opened ReferralCounters

  /** A change of one reward that its transaction has not committed yet. */
  datatype Effect =
    | Changed(id: nat, reward: Reward, to: RewardStatus)
    | Created(reward: Reward)

  /** What a transaction still has to write to a referrer's row. */
  datatype Due = ToReverse(count: nat, amount: real) | ToGrant(amount: real)

  datatype Reading = Reading(user: nat, row: Option<Stats>)

  /** `rows` are the counters it has written, and so locked. */
  datatype CounterTx = CounterTx(effects: seq<Effect>, rows: map<nat, Stats>, due: map<nat, Due>, read: Option<Reading>)

  datatype Ledger = Ledger(rewards: seq<Reward>, stats: map<nat, Stats>, txs: map<nat, CounterTx>)

  datatype Action =
    | Begin(t: nat)
    | Reverse(t: nat, ids: seq<nat>)
    | Grant(t: nat, id: nat)
    | Create(t: nat, reward: Reward)
    | ReadRow(t: nat, user: nat)
    | WriteRow(t: nat)
    | Commit(t: nat)
    | Rollback(t: nat)

  const NO_ROW: Stats := Stats(0, 0.0, 0.0)

  function CommittedRow(s: Ledger, user: nat): Stats { if user in s.stats then s.stats[user] else NO_ROW }

  function Row(s: Ledger, tx: CounterTx, user: nat): Option<Stats>
  {
    if user in tx.rows then Some(tx.rows[user]) else if user in s.stats then Some(s.stats[user]) else None
  }

  function RowOrZero(s: Ledger, tx: CounterTx, user: nat): Stats
  {
    if user in tx.rows then tx.rows[user] else CommittedRow(s, user)
  }

  predicate RowFree(s: Ledger, t: nat, user: nat)
  {
    forall u :: u in s.txs && u != t ==> user !in s.txs[u].rows
  }

  predicate Touches(effects: seq<Effect>, id: nat)
  {
    exists i :: 0 <= i < |effects| && effects[i].Changed? && effects[i].id == id
  }

  /** The reward is pending, and no transaction under way has changed it. */
  predicate Open(s: Ledger, id: nat)
  {
    id < |s.rewards| && s.rewards[id].status.PendingReward? && forall u :: u in s.txs ==> !Touches(s.txs[u].effects, id)
  }

  predicate Ready(s: Ledger, t: nat) { t in s.txs && s.txs[t].due == map[] && s.txs[t].read.None? }

  predicate Able(s: Ledger, a: Action)
  {
    match a
    case Begin(t) => t !in s.txs
    case Reverse(t, ids) =>
      && Ready(s, t)
      && (forall i :: 0 <= i < |ids| ==> Open(s, ids[i]))
      && (forall i, j :: 0 <= i < j < |ids| ==> ids[i] != ids[j])
    case Grant(t, id) => Ready(s, t) && Open(s, id)
    case Create(t, reward) => Ready(s, t) && reward.status.PendingReward? && reward.amount > 0.0 && RowFree(s, t, reward.referrer)
    case ReadRow(t, user) => t in s.txs && s.txs[t].read.None? && user in s.txs[t].due
    case WriteRow(t) =>
      t in s.txs && s.txs[t].read.Some? && s.txs[t].read.value.user in s.txs[t].due && RowFree(s, t, s.txs[t].read.value.user)
    case Commit(t) => Ready(s, t)
    case Rollback(t) => t in s.txs
  }

  function RewardsOf(s: Ledger, ids: seq<nat>): seq<Reward>
    requires forall i :: 0 <= i < |ids| ==> ids[i] < |s.rewards|
  {
    seq(|ids|, i requires 0 <= i < |ids| => s.rewards[ids[i]])
  }

  function Reversals(s: Ledger, ids: seq<nat>): seq<Effect>
    requires forall i :: 0 <= i < |ids| ==> ids[i] < |s.rewards|
  {
    seq(|ids|, i requires 0 <= i < |ids| => Changed(ids[i], s.rewards[ids[i]], ReversedReward))
  }

  /** Reversed rewards are grouped by referrer before any row is read. */
  function DueOf(rewards: seq<Reward>): map<nat, Due>
  {
    var groups := Grouped(rewards);
    map user | user in groups :: ToReverse(groups[user].count, groups[user].amount)
  }

  /** The write of a row from what was read of it; columns that were not read keep what the row holds now. */
  function Written(due: Due, read: Option<Stats>, row: Option<Stats>): Option<Stats>
  {
    match due
    case ToReverse(count, amount) =>
      // Without a row there is nothing to decrement.
      if read.None? then row
      else
        var current := if row.Some? then row.value else NO_ROW;
        Some(current.(referrals := MaxInt(0, read.value.referrals - count), pending := FloorAtZero(read.value.pending - amount)))
    case ToGrant(amount) =>
      if row.None? then Some(Stats(1, 0.0, amount))
      else
        var pending := if read.Some? then read.value.pending else 0.0;
        Some(row.value.(pending := FloorAtZero(pending - amount), granted := row.value.granted + amount))
  }

  function WithTx(s: Ledger, t: nat, tx: CounterTx): Ledger { s.(txs := s.txs[t := tx]) }

  function Act(s: Ledger, a: Action): Ledger
    requires Able(s, a)
  {
    match a
    case Begin(t) => WithTx(s, t, CounterTx([], map[], map[], None))
    case Reverse(t, ids) =>
      WithTx(s, t, s.txs[t].(effects := s.txs[t].effects + Reversals(s, ids), due := DueOf(RewardsOf(s, ids))))
    case Grant(t, id) =>
      WithTx(s, t, s.txs[t].(effects := s.txs[t].effects + [Changed(id, s.rewards[id], Released)],
                            due := map[s.rewards[id].referrer := ToGrant(s.rewards[id].amount)]))
    case Create(t, reward) =>
      var row := RowOrZero(s, s.txs[t], reward.referrer);
      WithTx(s, t, s.txs[t].(
        effects := s.txs[t].effects + [Created(reward)],
        rows := s.txs[t].rows[reward.referrer := row.(referrals := row.referrals + 1, pending := row.pending + reward.amount)]))
    case ReadRow(t, user) => WithTx(s, t, s.txs[t].(read := Some(Reading(user, Row(s, s.txs[t], user)))))
    case WriteRow(t) => WithTx(s, t, AfterWrite(s, s.txs[t]))
    case Commit(t) => Ledger(RewardsAfter(s.rewards, s.txs[t].effects), s.stats + s.txs[t].rows, s.txs - {t})
    case Rollback(t) => s.(txs := s.txs - {t})
  }

  function AfterWrite(s: Ledger, tx: CounterTx): CounterTx
    requires tx.read.Some? && tx.read.value.user in tx.due
  {
    var user := tx.read.value.user;
    var written := Written(tx.due[user], tx.read.value.row, Row(s, tx, user));
    tx.(rows := if written.Some? then tx.rows[user := written.value] else tx.rows, due := tx.due - {user}, read := None)
  }

  // ----- rewards after a commit

  function Apply(rewards: seq<Reward>, e: Effect): seq<Reward>
  {
    match e
    case Changed(id, _, to) => if id < |rewards| then rewards[id := rewards[id].(status := to)] else rewards
    case Created(reward) => rewards + [reward]
  }

  function RewardsAfter(rewards: seq<Reward>, effects: seq<Effect>): seq<Reward>
  {
    if effects == [] then rewards else Apply(RewardsAfter(rewards, effects[..|effects| - 1]), effects[|effects| - 1])
  }

  /** The effects were made on the rewards as they are committed, each on its own reward. */
  ghost predicate Fit(rewards: seq<Reward>, effects: seq<Effect>)
  {
    && (forall i :: 0 <= i < |effects| ==> EffectOk(rewards, effects[i]))
    && (forall i, j :: 0 <= i < j < |effects| && effects[i].Changed? && effects[j].Changed? ==> effects[i].id != effects[j].id)
  }

  predicate EffectOk(rewards: seq<Reward>, e: Effect)
  {
    match e
    case Changed(id, reward, to) => id < |rewards| && rewards[id] == reward && reward.status.PendingReward? && !to.PendingReward?
    case Created(reward) => reward.amount > 0.0
  }

  /** How an effect moves a sum over the rewards. */
  function Change(weight: Reward -> real): Effect -> real
  {
    (e: Effect) => match e
      case Changed(_, reward, to) => weight(reward.(status := to)) - weight(reward)
      case Created(reward) => weight(reward)
  }

  /** A commit leaves the rewards its transaction has not changed. */
  lemma {:induction false} AppliedKeeps(rewards: seq<Reward>, effects: seq<Effect>, id: nat)
    requires id < |rewards| && !Touches(effects, id)
    ensures id < |RewardsAfter(rewards, effects)| && RewardsAfter(rewards, effects)[id] == rewards[id]
  {
    if effects != [] {
      var front := effects[..|effects| - 1];
      assert forall i :: 0 <= i < |front| ==> front[i] == effects[i];
      AppliedKeeps(rewards, front, id);
    }
  }

  lemma {:induction false} AppliedGrows(rewards: seq<Reward>, effects: seq<Effect>)
    ensures |rewards| <= |RewardsAfter(rewards, effects)|
  {
    if effects != [] { AppliedGrows(rewards, effects[..|effects| - 1]); }
  }

  lemma FitFront(rewards: seq<Reward>, effects: seq<Effect>)
    requires Fit(rewards, effects) && effects != []
    ensures Fit(rewards, effects[..|effects| - 1])
    ensures effects[|effects| - 1].Changed? ==> !Touches(effects[..|effects| - 1], effects[|effects| - 1].id)
  {}

  /** A commit moves every sum over the rewards by its effects. */
  lemma {:induction false} AppliedSum(rewards: seq<Reward>, effects: seq<Effect>, weight: Reward -> real)
    requires Fit(rewards, effects)
    ensures Sum(RewardsAfter(rewards, effects), weight) == Sum(rewards, weight) + Sum(effects, Change(weight))
  {
    if effects != [] {
      var front := effects[..|effects| - 1];
      var last := effects[|effects| - 1];
      FitFront(rewards, effects);
      AppliedSum(rewards, front, weight);
      if last.Changed? {
        AppliedKeeps(rewards, front, last.id);
        SumUpdate(RewardsAfter(rewards, front), last.id, last.reward.(status := last.to), weight);
      } else {
        SumAppend(RewardsAfter(rewards, front), last.reward, weight);
      }
    }
  }

  lemma {:induction false} AppliedPositive(rewards: seq<Reward>, effects: seq<Effect>)
    requires RewardsPositive(rewards) && Fit(rewards, effects)
    ensures RewardsPositive(RewardsAfter(rewards, effects))
  {
    if effects != [] {
      FitFront(rewards, effects);
      AppliedPositive(rewards, effects[..|effects| - 1]);
    }
  }

  // ----- what a transaction owes

  function Amount(due: map<nat, Due>, user: nat): real { if user in due then due[user].amount else 0.0 }

  function Count(due: map<nat, Due>, user: nat): nat { if user in due && due[user].ToReverse? then due[user].count else 0 }

  function Payout(due: map<nat, Due>, user: nat): real { if user in due && due[user].ToGrant? then due[user].amount else 0.0 }

  /** The row a transaction sees is the committed one moved by its effects, less what it has yet to write. */
  ghost predicate Balanced(s: Ledger, tx: CounterTx, user: nat)
  {
    var row := RowOrZero(s, tx, user);
    var base := CommittedRow(s, user);
    && row.pending == base.pending + Sum(tx.effects, Change(PendingFor(user))) + Amount(tx.due, user)
    && row.referrals as real == base.referrals as real + Sum(tx.effects, Change(CountedFor(user))) + Count(tx.due, user) as real
    && row.granted == base.granted + Sum(tx.effects, Change(EarnedBy(user))) - Payout(tx.due, user)
  }

  /** What was read covers what is due. */
  predicate ReadingOk(s: Ledger, tx: CounterTx)
  {
    && (forall user :: user in tx.due ==> user in s.stats)
    && (tx.read.Some? ==>
          && tx.read.value.user in tx.due && tx.read.value.row.Some?
          && tx.read.value.row.value.pending >= Amount(tx.due, tx.read.value.user)
          && tx.read.value.row.value.referrals >= Count(tx.due, tx.read.value.user))
  }

  ghost predicate CounterTxOk(s: Ledger, tx: CounterTx)
  {
    Fit(s.rewards, tx.effects) && ReadingOk(s, tx) && forall user: nat :: Balanced(s, tx, user)
  }

  ghost predicate Apart(a: CounterTx, b: CounterTx)
  {
    && (forall user :: user in a.rows ==> user !in b.rows)
    && (forall id: nat :: Touches(a.effects, id) ==> !Touches(b.effects, id))
  }

  ghost predicate Sound(s: Ledger)
  {
    && RewardsPositive(s.rewards) && CountersAgree(s.rewards, s.stats)
    && (forall t :: t in s.txs ==> CounterTxOk(s, s.txs[t]))
    && (forall t, u :: t in s.txs && u in s.txs && t != u ==> Apart(s.txs[t], s.txs[u]))
  }

  /** The write finds the row as it was read, in the columns it writes from what it read. */
  predicate Fresh(s: Ledger, a: Action)
    requires Able(s, a)
  {
    a.WriteRow? ==>
      var tx := s.txs[a.t];
      var row := Row(s, tx, tx.read.value.user);
      && (row.Some? <==> tx.read.value.row.Some?)
      && (row.Some? ==> row.value.pending == tx.read.value.row.value.pending)
      && (row.Some? && tx.due[tx.read.value.user].ToReverse? ==> row.value.referrals == tx.read.value.row.value.referrals)
  }

  // ----- when a write is right

  /** The rows a transaction sees cover what it has yet to write. */
  lemma SeenCovers(s: Ledger, t: nat, user: nat)
    requires Sound(s) && t in s.txs
    ensures RowOrZero(s, s.txs[t], user).pending >= Amount(s.txs[t].due, user)
    ensures RowOrZero(s, s.txs[t], user).referrals >= Count(s.txs[t].due, user)
  {
    var effects := s.txs[t].effects;
    assert CounterTxOk(s, s.txs[t]) && Balanced(s, s.txs[t], user) && RowAgrees(s.rewards, s.stats, user);
    AppliedPositive(s.rewards, effects);
    AppliedSum(s.rewards, effects, PendingFor(user));
    AppliedSum(s.rewards, effects, CountedFor(user));
    SumNonNegative(RewardsAfter(s.rewards, effects), PendingFor(user));
    SumNonNegative(RewardsAfter(s.rewards, effects), CountedFor(user));
  }

  /** A write brings its transaction's row in line if and only if the row is still as it was read. */
  lemma WriteIsRightIff(s: Ledger, t: nat)
    requires Sound(s) && Able(s, WriteRow(t))
    ensures Balanced(Act(s, WriteRow(t)), Act(s, WriteRow(t)).txs[t], s.txs[t].read.value.user) <==> Fresh(s, WriteRow(t))
  {
    var tx := s.txs[t];
    var user := tx.read.value.user;
    assert CounterTxOk(s, tx) && Balanced(s, tx, user);
    SeenCovers(s, t, user);
  }

  /** A write leaves the other rows in line. */
  lemma WriteSparesOthers(s: Ledger, t: nat, other: nat)
    requires Sound(s) && Able(s, WriteRow(t)) && other != s.txs[t].read.value.user
    ensures Balanced(Act(s, WriteRow(t)), Act(s, WriteRow(t)).txs[t], other)
  {
    assert CounterTxOk(s, s.txs[t]) && Balanced(s, s.txs[t], other);
  }

  /** A commit leaves counters and rewards in agreement if and only if all its rows are in line with its effects. */
  lemma CommitAgreesIff(s: Ledger, t: nat)
    requires CountersAgree(s.rewards, s.stats) && Able(s, Commit(t)) && Fit(s.rewards, s.txs[t].effects)
    ensures CountersAgree(Act(s, Commit(t)).rewards, Act(s, Commit(t)).stats) <==> forall user: nat :: Balanced(s, s.txs[t], user)
  {
    var v := Act(s, Commit(t));
    forall user: nat ensures RowAgrees(v.rewards, v.stats, user) <==> Balanced(s, s.txs[t], user) {
      RowAgreesIffBalanced(s, t, user);
    }
    if CountersAgree(v.rewards, v.stats) {
      forall user: nat ensures Balanced(s, s.txs[t], user) { assert RowAgrees(v.rewards, v.stats, user); }
    }
  }

  lemma RowAgreesIffBalanced(s: Ledger, t: nat, user: nat)
    requires CountersAgree(s.rewards, s.stats) && Able(s, Commit(t)) && Fit(s.rewards, s.txs[t].effects)
    ensures RowAgrees(Act(s, Commit(t)).rewards, Act(s, Commit(t)).stats, user) <==> Balanced(s, s.txs[t], user)
  {
    var effects := s.txs[t].effects;
    assert RowAgrees(s.rewards, s.stats, user);
    AppliedSum(s.rewards, effects, PendingFor(user));
    AppliedSum(s.rewards, effects, CountedFor(user));
    AppliedSum(s.rewards, effects, EarnedBy(user));
  }

  // ----- every fresh step keeps the counters

  /** One more reversed reward adds to what is due to its referrer. */
  lemma OneMoreDue(rewards: seq<Reward>, user: nat)
    requires rewards != []
    ensures var due := DueOf(rewards); var before := DueOf(rewards[..|rewards| - 1]); var last := rewards[|rewards| - 1];
      && Amount(due, user) == Amount(before, user) + (if last.referrer == user then last.amount else 0.0)
      && Count(due, user) == Count(before, user) + (if last.referrer == user then 1 else 0)
      && Payout(due, user) == 0.0 == Payout(before, user)
  {}

  /** One more reversal takes what it reverses off the sums. */
  lemma OneMoreReversal(effects: seq<Effect>, id: nat, reward: Reward, user: nat)
    requires reward.status.PendingReward?
    ensures var all := effects + [Changed(id, reward, ReversedReward)]; var mine := reward.referrer == user;
      && Sum(all, Change(PendingFor(user))) == Sum(effects, Change(PendingFor(user))) - (if mine then reward.amount else 0.0)
      && Sum(all, Change(CountedFor(user))) == Sum(effects, Change(CountedFor(user))) - (if mine then 1.0 else 0.0)
      && Sum(all, Change(EarnedBy(user))) == Sum(effects, Change(EarnedBy(user)))
  {
    var e := Changed(id, reward, ReversedReward);
    SumAppend(effects, e, Change(PendingFor(user)));
    SumAppend(effects, e, Change(CountedFor(user)));
    SumAppend(effects, e, Change(EarnedBy(user)));
  }

  lemma {:induction false} ReversalSums(s: Ledger, effects: seq<Effect>, ids: seq<nat>, user: nat)
    requires forall i :: 0 <= i < |ids| ==> ids[i] < |s.rewards| && s.rewards[ids[i]].status.PendingReward?
    ensures var all := effects + Reversals(s, ids);
      var due := DueOf(RewardsOf(s, ids));
      && Sum(all, Change(PendingFor(user))) + Amount(due, user) == Sum(effects, Change(PendingFor(user)))
      && Sum(all, Change(CountedFor(user))) + Count(due, user) as real == Sum(effects, Change(CountedFor(user)))
      && Sum(all, Change(EarnedBy(user))) - Payout(due, user) == Sum(effects, Change(EarnedBy(user)))
  {
    if ids == [] {
      assert effects + Reversals(s, ids) == effects;
    } else {
      var front := ids[..|ids| - 1];
      var last := ids[|ids| - 1];
      var e := Changed(last, s.rewards[last], ReversedReward);
      ReversalSums(s, effects, front, user);
      assert RewardsOf(s, ids)[..|ids| - 1] == RewardsOf(s, front);
      OneMoreDue(RewardsOf(s, ids), user);
      assert effects + Reversals(s, ids) == (effects + Reversals(s, front)) + [e];
      OneMoreReversal(effects + Reversals(s, front), last, s.rewards[last], user);
    }
  }

  lemma {:induction false} DueHaveRows(s: Ledger, ids: seq<nat>, user: nat)
    requires RewardsPositive(s.rewards) && CountersAgree(s.rewards, s.stats)
    requires forall i :: 0 <= i < |ids| ==> ids[i] < |s.rewards| && s.rewards[ids[i]].status.PendingReward?
    requires user in DueOf(RewardsOf(s, ids))
    ensures user in s.stats
  {
    var front := ids[..|ids| - 1];
    assert RewardsOf(s, ids)[..|ids| - 1] == RewardsOf(s, front);
    if user in DueOf(RewardsOf(s, front)) {
      DueHaveRows(s, front, user);
    } else {
      RowCovers(s.rewards, s.stats, ids[|ids| - 1]);
    }
  }

  /** The transaction `t` moves on; the tables stay. */
  lemma TxKeepsSound(s: Ledger, t: nat, tx: CounterTx)
    requires Sound(s) && CounterTxOk(s, tx)
    requires forall u :: u in s.txs && u != t ==> Apart(s.txs[u], tx) && Apart(tx, s.txs[u])
    ensures Sound(WithTx(s, t, tx))
  {
    var v := WithTx(s, t, tx);
    forall u | u in v.txs ensures CounterTxOk(v, v.txs[u]) {
      var w := if u == t then tx else s.txs[u];
      assert CounterTxOk(s, w);
      forall user: nat ensures Balanced(v, w, user) { assert Balanced(s, w, user); }
    }
  }

  /** More effects, on rewards nobody else has changed, keep the transactions apart. */
  lemma StaysApart(s: Ledger, t: nat, more: seq<Effect>, next: CounterTx)
    requires Sound(s) && t in s.txs && next.effects == s.txs[t].effects + more
    requires forall user :: user in next.rows ==> user in s.txs[t].rows || RowFree(s, t, user)
    requires forall i :: 0 <= i < |more| && more[i].Changed? ==> Open(s, more[i].id)
    ensures forall u :: u in s.txs && u != t ==> Apart(s.txs[u], next) && Apart(next, s.txs[u])
  {
    TouchesMore(s.txs[t].effects, more);
    forall u | u in s.txs && u != t ensures Apart(s.txs[u], next) && Apart(next, s.txs[u]) {
      assert Apart(s.txs[u], s.txs[t]) && Apart(s.txs[t], s.txs[u]);
    }
  }

  lemma ReverseKeepsSound(s: Ledger, t: nat, ids: seq<nat>)
    requires Sound(s) && Able(s, Reverse(t, ids))
    ensures Sound(Act(s, Reverse(t, ids)))
  {
    var tx := s.txs[t];
    var next := Act(s, Reverse(t, ids)).txs[t];
    assert CounterTxOk(s, tx);
    FitMore(s, tx.effects, Reversals(s, ids));
    forall user | user in next.due ensures user in s.stats { DueHaveRows(s, ids, user); }
    forall user: nat ensures Balanced(s, next, user) {
      assert Balanced(s, tx, user);
      ReversalSums(s, tx.effects, ids, user);
    }
    StaysApart(s, t, Reversals(s, ids), next);
    TxKeepsSound(s, t, next);
  }

  lemma TouchesMore(effects: seq<Effect>, more: seq<Effect>)
    ensures forall id: nat :: Touches(effects + more, id) ==> Touches(effects, id) || Touches(more, id)
  {
    forall id: nat | Touches(effects + more, id) ensures Touches(effects, id) || Touches(more, id) {
      var i :| 0 <= i < |effects + more| && (effects + more)[i].Changed? && (effects + more)[i].id == id;
      if i < |effects| { assert effects[i].id == id; } else { assert more[i - |effects|].id == id; }
    }
  }

  lemma FitMore(s: Ledger, effects: seq<Effect>, more: seq<Effect>)
    requires Fit(s.rewards, effects) && Fit(s.rewards, more)
    requires forall i :: 0 <= i < |more| && more[i].Changed? ==> !Touches(effects, more[i].id)
    ensures Fit(s.rewards, effects + more)
  {
    var all := effects + more;
    forall i, j | 0 <= i < j < |all| && all[i].Changed? && all[j].Changed? ensures all[i].id != all[j].id {
      if i < |effects| <= j { assert !Touches(effects, more[j - |effects|].id) && effects[i] == all[i]; }
    }
  }

  lemma GrantKeepsSound(s: Ledger, t: nat, id: nat)
    requires Sound(s) && Able(s, Grant(t, id))
    ensures Sound(Act(s, Grant(t, id)))
  {
    var tx := s.txs[t];
    var e := Changed(id, s.rewards[id], Released);
    var next := Act(s, Grant(t, id)).txs[t];
    assert CounterTxOk(s, tx);
    FitMore(s, tx.effects, [e]);
    RowCovers(s.rewards, s.stats, id);
    forall user: nat ensures Balanced(s, next, user) {
      assert Balanced(s, tx, user);
      SumAppend(tx.effects, e, Change(PendingFor(user)));
      SumAppend(tx.effects, e, Change(CountedFor(user)));
      SumAppend(tx.effects, e, Change(EarnedBy(user)));
    }
    StaysApart(s, t, [e], next);
    TxKeepsSound(s, t, next);
  }

  lemma CreateKeepsSound(s: Ledger, t: nat, reward: Reward)
    requires Sound(s) && Able(s, Create(t, reward))
    ensures Sound(Act(s, Create(t, reward)))
  {
    var tx := s.txs[t];
    var next := Act(s, Create(t, reward)).txs[t];
    assert CounterTxOk(s, tx);
    FitMore(s, tx.effects, [Created(reward)]);
    forall user: nat ensures Balanced(s, next, user) {
      assert Balanced(s, tx, user);
      SumAppend(tx.effects, Created(reward), Change(PendingFor(user)));
      SumAppend(tx.effects, Created(reward), Change(CountedFor(user)));
      SumAppend(tx.effects, Created(reward), Change(EarnedBy(user)));
    }
    StaysApart(s, t, [Created(reward)], next);
    TxKeepsSound(s, t, next);
  }

  lemma ReadKeepsSound(s: Ledger, t: nat, user: nat)
    requires Sound(s) && Able(s, ReadRow(t, user))
    ensures Sound(Act(s, ReadRow(t, user)))
  {
    var tx := s.txs[t];
    var next := Act(s, ReadRow(t, user)).txs[t];
    assert CounterTxOk(s, tx);
    SeenCovers(s, t, user);
    forall other: nat ensures Balanced(s, next, other) { assert Balanced(s, tx, other); }
    forall u | u in s.txs && u != t ensures Apart(s.txs[u], next) && Apart(next, s.txs[u]) {
      assert Apart(s.txs[u], tx) && Apart(tx, s.txs[u]);
    }
    TxKeepsSound(s, t, next);
  }

  lemma WriteKeepsSound(s: Ledger, t: nat)
    requires Sound(s) && Able(s, WriteRow(t)) && Fresh(s, WriteRow(t))
    ensures Sound(Act(s, WriteRow(t)))
  {
    var tx := s.txs[t];
    var v := Act(s, WriteRow(t));
    var next := v.txs[t];
    assert CounterTxOk(s, tx);
    WriteIsRightIff(s, t);
    forall user: nat ensures Balanced(s, next, user) {
      if user != tx.read.value.user { WriteSparesOthers(s, t, user); }
      assert Balanced(v, next, user);
    }
    forall u | u in s.txs && u != t ensures Apart(s.txs[u], next) && Apart(next, s.txs[u]) {
      assert Apart(s.txs[u], tx) && Apart(tx, s.txs[u]);
    }
    TxKeepsSound(s, t, next);
  }

  /** A commit leaves the other transactions what they need of the tables. */
  lemma CommitSpares(s: Ledger, t: nat, u: nat)
    requires Sound(s) && Able(s, Commit(t)) && u in s.txs && u != t
    ensures CounterTxOk(Act(s, Commit(t)), s.txs[u])
  {
    var v := Act(s, Commit(t));
    var tx := s.txs[u];
    assert CounterTxOk(s, tx) && CounterTxOk(s, s.txs[t]) && Apart(tx, s.txs[t]);
    AppliedGrows(s.rewards, s.txs[t].effects);
    forall i | 0 <= i < |tx.effects| ensures EffectOk(v.rewards, tx.effects[i]) {
      assert EffectOk(s.rewards, tx.effects[i]);
      if tx.effects[i].Changed? {
        assert Touches(tx.effects, tx.effects[i].id);
        AppliedKeeps(s.rewards, s.txs[t].effects, tx.effects[i].id);
      }
    }
    forall user: nat ensures Balanced(v, tx, user) { assert Balanced(s, tx, user); }
  }

  lemma CommitKeepsSound(s: Ledger, t: nat)
    requires Sound(s) && Able(s, Commit(t))
    ensures Sound(Act(s, Commit(t)))
  {
    var v := Act(s, Commit(t));
    assert CounterTxOk(s, s.txs[t]);
    CommitAgreesIff(s, t);
    AppliedPositive(s.rewards, s.txs[t].effects);
    forall u | u in v.txs ensures CounterTxOk(v, v.txs[u]) { CommitSpares(s, t, u); }
    forall u, w | u in v.txs && w in v.txs && u != w ensures Apart(v.txs[u], v.txs[w]) { assert Apart(s.txs[u], s.txs[w]); }
  }

  lemma BoundaryKeepsSound(s: Ledger, a: Action)
    requires Sound(s) && Able(s, a) && (a.Begin? || a.Rollback?)
    ensures Sound(Act(s, a))
  {
    var v := Act(s, a);
    forall u | u in v.txs ensures CounterTxOk(v, v.txs[u]) {
      if u in s.txs { assert CounterTxOk(s, s.txs[u]); }
      forall user: nat ensures Balanced(v, v.txs[u], user) { if u in s.txs { assert Balanced(s, s.txs[u], user); } }
    }
    forall u, w | u in v.txs && w in v.txs && u != w ensures Apart(v.txs[u], v.txs[w]) {
      if u in s.txs && w in s.txs { assert Apart(s.txs[u], s.txs[w]); }
    }
  }

  lemma ActionKeepsSound(s: Ledger, a: Action)
    requires Sound(s) && Able(s, a) && Fresh(s, a)
    ensures Sound(Act(s, a))
  {
    match a
    case Begin(t) => BoundaryKeepsSound(s, a);
    case Rollback(t) => BoundaryKeepsSound(s, a);
    case Reverse(t, ids) => ReverseKeepsSound(s, t, ids);
    case Grant(t, id) => GrantKeepsSound(s, t, id);
    case Create(t, reward) => CreateKeepsSound(s, t, reward);
    case ReadRow(t, user) => ReadKeepsSound(s, t, user);
    case WriteRow(t) => WriteKeepsSound(s, t);
    case Commit(t) => CommitKeepsSound(s, t);
  }

  // ----- runs

  ghost predicate ValidHistory(s: Ledger, history: seq<Action>, current: bool)
    decreases |history|
  {
    history != [] ==>
      && Able(s, history[0])
      && (current ==> Fresh(s, history[0]))
      && ValidHistory(Act(s, history[0]), history[1..], current)
  }

  ghost function Later(s: Ledger, history: seq<Action>): Ledger
    decreases |history|
  {
    if history == [] || !Able(s, history[0]) then s else Later(Act(s, history[0]), history[1..])
  }

  const EMPTY_LEDGER: Ledger := Ledger([], map[], map[])

  ghost predicate Reached(s: Ledger, current: bool)
  {
    exists history :: ValidHistory(EMPTY_LEDGER, history, current) && Later(EMPTY_LEDGER, history) == s
  }

  lemma {:induction false} HistoryKeepsSound(s: Ledger, history: seq<Action>)
    requires Sound(s) && ValidHistory(s, history, true)
    ensures Sound(Later(s, history))
    decreases |history|
  {
    if history != [] {
      ActionKeepsSound(s, history[0]);
      HistoryKeepsSound(Act(s, history[0]), history[1..]);
    }
  }

  lemma ReachedIsSound(s: Ledger)
    requires Reached(s, true)
    ensures Sound(s)
  {
    var history :| ValidHistory(EMPTY_LEDGER, history, true) && Later(EMPTY_LEDGER, history) == s;
    assert forall user :: RowAgrees([], map[], user);
    HistoryKeepsSound(EMPTY_LEDGER, history);
  }
}
