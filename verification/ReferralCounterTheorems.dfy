/**
  What becomes of the referral counters when transactions interleave: conserved as long as every
  write finds its row as it was read, out of agreement by exactly one that does not, and a run in
  which that happens.
 */
module ReferralCounterTheorems {
  import opened Foundations
  import opened ReferralLedger
  import opened ReferralCounters
  import opened ReferralCounterRaces

  /**
    Conservation: in every run whose writes are fresh, however transactions interleave, each
    referrer's committed row is the sum of their rewards, and no floor has ever taken effect.
   */
  lemma FreshRunsConserveCounters(s: Ledger, user: nat)
    requires Reached(s, true)
    ensures CommittedRow(s, user).pending == Sum(s.rewards, PendingFor(user)) >= 0.0
    ensures CommittedRow(s, user).referrals as real == Sum(s.rewards, CountedFor(user)) >= 0.0
    ensures CommittedRow(s, user).granted == Sum(s.rewards, EarnedBy(user))
  {
    ReachedIsSound(s);
    assert RowAgrees(s.rewards, s.stats, user);
    SumNonNegative(s.rewards, PendingFor(user));
    SumNonNegative(s.rewards, CountedFor(user));
  }

  /**
    The last write of a transaction and its commit leave the counters in agreement with the rewards
    if and only if the row it writes still shows what was read of it.
   */
  lemma CountersSurviveIffFresh(s: Ledger, t: nat)
    requires Reached(s, true) && Able(s, WriteRow(t)) && s.txs[t].due.Keys == {s.txs[t].read.value.user}
    ensures Able(Act(s, WriteRow(t)), Commit(t))
    ensures var v := Act(Act(s, WriteRow(t)), Commit(t));
      CountersAgree(v.rewards, v.stats) <==> Fresh(s, WriteRow(t))
  {
    ReachedIsSound(s);
    var w := Act(s, WriteRow(t));
    assert w.txs[t].due == map[];
    assert CounterTxOk(s, s.txs[t]);
    WriteIsRightIff(s, t);
    CommitAgreesIff(w, t);
    if Fresh(s, WriteRow(t)) {
      forall user: nat ensures Balanced(w, w.txs[t], user) {
        if user != s.txs[t].read.value.user { WriteSparesOthers(s, t, user); }
      }
    }
  }

  // ----- a lost decrement

  lemma Proceed(s: Ledger, a: Action, v: Ledger, current: bool)
    requires Reached(s, current) && Able(s, a) && (current ==> Fresh(s, a)) && Act(s, a) == v
    ensures Reached(v, current)
  {
    var history :| ValidHistory(EMPTY_LEDGER, history, current) && Later(EMPTY_LEDGER, history) == s;
    OneMoreAction(EMPTY_LEDGER, history, a, current);
  }

  lemma {:induction false} OneMoreAction(s: Ledger, history: seq<Action>, a: Action, current: bool)
    requires ValidHistory(s, history, current) && Able(Later(s, history), a) && (current ==> Fresh(Later(s, history), a))
    ensures ValidHistory(s, history + [a], current) && Later(s, history + [a]) == Act(Later(s, history), a)
    decreases |history|
  {
    if history == [] {
      assert history + [a] == [a];
      assert Later(Act(s, a), []) == Act(s, a);
    } else {
      assert (history + [a])[1..] == history[1..] + [a];
      OneMoreAction(Act(s, history[0]), history[1..], a, current);
    }
  }

  lemma {:induction false} AnyRunIsARun(s: Ledger, history: seq<Action>)
    requires ValidHistory(s, history, true)
    ensures ValidHistory(s, history, false)
    decreases |history|
  {
    if history != [] { AnyRunIsARun(Act(s, history[0]), history[1..]); }
  }

  /** Two transactions side by side. */
  function Both(s: Ledger, a: CounterTx, b: CounterTx): Ledger { s.(txs := map[0 := a, 1 := b]) }

  /** A transaction that has reversed reward `i`, and what it has read. */
  function Reversing(s: Ledger, i: nat, read: Option<Reading>): CounterTx
    requires i < |s.rewards|
  {
    CounterTx([Changed(i, s.rewards[i], ReversedReward)], map[], map[s.rewards[i].referrer := ToReverse(1, s.rewards[i].amount)], read)
  }

  const NEW_TX: CounterTx := CounterTx([], map[], map[], None)

  lemma SetBoth(s: Ledger, a: CounterTx, b: CounterTx, c: CounterTx)
    ensures WithTx(Both(s, a, b), 0, c) == Both(s, c, b) && WithTx(Both(s, a, b), 1, c) == Both(s, a, c)
  {
    assert map[0 := a, 1 := b][0 := c] == map[0 := c, 1 := b];
    assert map[0 := a, 1 := b][1 := c] == map[0 := a, 1 := c];
  }

  lemma OneReversal(s: Ledger, i: nat)
    requires i < |s.rewards|
    ensures Reversals(s, [i]) == [Changed(i, s.rewards[i], ReversedReward)]
    ensures DueOf(RewardsOf(s, [i])) == map[s.rewards[i].referrer := ToReverse(1, s.rewards[i].amount)]
  {
    var rewards := RewardsOf(s, [i]);
    assert rewards == [s.rewards[i]] && rewards[..0] == [];
    assert Grouped(rewards) == map[s.rewards[i].referrer := Reversal(1, s.rewards[i].amount)];
  }

  lemma Pending(s: Ledger, i: nat, j: nat, r: nat)
    requires Reached(s, true) && s.txs == map[] && i < |s.rewards| && j < |s.rewards| && i != j
    requires s.rewards[i].status.PendingReward? && s.rewards[j].status.PendingReward?
    requires s.rewards[i].referrer == r && s.rewards[j].referrer == r
    ensures r in s.stats && s.stats[r].pending >= s.rewards[i].amount && s.stats[r].pending >= s.rewards[j].amount
    ensures s.stats[r].referrals >= 1
    ensures Reached(s, false)
  {
    ReachedIsSound(s);
    RowCovers(s.rewards, s.stats, i);
    RowCovers(s.rewards, s.stats, j);
    var history :| ValidHistory(EMPTY_LEDGER, history, true) && Later(EMPTY_LEDGER, history) == s;
    AnyRunIsARun(EMPTY_LEDGER, history);
  }

  lemma BothBegin(s: Ledger)
    requires Reached(s, false) && s.txs == map[]
    ensures Reached(Both(s, NEW_TX, NEW_TX), false)
  {
    var one := WithTx(s, 0, NEW_TX);
    Proceed(s, Begin(0), one, false);
    assert map[][0 := NEW_TX][1 := NEW_TX] == map[0 := NEW_TX, 1 := NEW_TX];
    Proceed(one, Begin(1), Both(s, NEW_TX, NEW_TX), false);
  }

  /** Both have reversed a reward of the referrer and read the same row. */
  lemma BothHaveRead(s: Ledger, i: nat, j: nat, r: nat)
    requires Reached(s, false) && s.txs == map[] && i < |s.rewards| && j < |s.rewards| && i != j
    requires s.rewards[i].status.PendingReward? && s.rewards[j].status.PendingReward?
    requires s.rewards[i].referrer == r && s.rewards[j].referrer == r && r in s.stats
    ensures var seen := Some(Reading(r, Some(s.stats[r])));
      Reached(Both(s, Reversing(s, i, seen), Reversing(s, j, seen)), false)
  {
    var seen := Some(Reading(r, Some(s.stats[r])));
    BothHaveReversed(s, i, j);
    var a, b := Reversing(s, i, None), Reversing(s, j, None);
    SetBoth(s, a, b, Reversing(s, i, seen));
    Proceed(Both(s, a, b), ReadRow(0, r), Both(s, Reversing(s, i, seen), b), false);
    SetBoth(s, Reversing(s, i, seen), b, Reversing(s, j, seen));
    Proceed(Both(s, Reversing(s, i, seen), b), ReadRow(1, r), Both(s, Reversing(s, i, seen), Reversing(s, j, seen)), false);
  }

  lemma BothHaveReversed(s: Ledger, i: nat, j: nat)
    requires Reached(s, false) && s.txs == map[] && i < |s.rewards| && j < |s.rewards| && i != j
    requires s.rewards[i].status.PendingReward? && s.rewards[j].status.PendingReward?
    ensures Reached(Both(s, Reversing(s, i, None), Reversing(s, j, None)), false)
  {
    BothBegin(s);
    OneReversal(s, i);
    OneReversal(s, j);
    var a, b := Reversing(s, i, None), Reversing(s, j, None);
    var begun := Both(s, NEW_TX, NEW_TX);
    assert [] + a.effects == a.effects && [] + b.effects == b.effects;
    assert Reversals(begun, [i]) == a.effects && RewardsOf(begun, [i]) == RewardsOf(s, [i]);
    SetBoth(s, NEW_TX, NEW_TX, a);
    Proceed(begun, Reverse(0, [i]), Both(s, a, NEW_TX), false);
    var half := Both(s, a, NEW_TX);
    assert Reversals(half, [j]) == b.effects && RewardsOf(half, [j]) == RewardsOf(s, [j]);
    assert !Touches(a.effects, j);
    SetBoth(s, a, NEW_TX, b);
    Proceed(half, Reverse(1, [j]), Both(s, a, b), false);
  }

  function Lowered(row: Stats, amount: real): Stats { row.(referrals := row.referrals - 1, pending := row.pending - amount) }

  lemma AppliedAppend(rewards: seq<Reward>, effects: seq<Effect>, e: Effect)
    ensures RewardsAfter(rewards, effects + [e]) == Apply(RewardsAfter(rewards, effects), e)
  {
    assert (effects + [e])[..|effects|] == effects;
  }

  /** The first writes and commits, and its decrement is there. */
  lemma FirstCommits(s: Ledger, i: nat, b: CounterTx, r: nat) returns (v: Ledger)
    requires i < |s.rewards| && s.rewards[i].referrer == r && r in s.stats && r !in b.rows
    requires s.stats[r].pending >= s.rewards[i].amount && s.stats[r].referrals >= 1
    requires Reached(Both(s, Reversing(s, i, Some(Reading(r, Some(s.stats[r])))), b), false)
    ensures v == Ledger(s.rewards[i := s.rewards[i].(status := ReversedReward)],
                        s.stats[r := Lowered(s.stats[r], s.rewards[i].amount)], map[1 := b])
    ensures Reached(v, false)
  {
    var a := Reversing(s, i, Some(Reading(r, Some(s.stats[r]))));
    var row := Lowered(s.stats[r], s.rewards[i].amount);
    var written := CounterTx(a.effects, map[r := row], map[], None);
    assert a.due - {r} == map[];
    SetBoth(s, a, b, written);
    Proceed(Both(s, a, b), WriteRow(0), Both(s, written, b), false);
    v := Act(Both(s, written, b), Commit(0));
    AppliedAppend(s.rewards, [], a.effects[0]);
    assert [] + [a.effects[0]] == a.effects && s.stats + map[r := row] == s.stats[r := row];
    assert map[0 := written, 1 := b] - {0} == map[1 := b];
    Proceed(Both(s, written, b), Commit(0), v, false);
  }

  /** The second writes what it computed from its earlier reading. */
  lemma SecondCommits(s: Ledger, j: nat, r: nat, read: Stats) returns (v: Ledger)
    requires j < |s.rewards| && s.rewards[j].referrer == r && r in s.stats && read.granted == s.stats[r].granted
    requires read.pending >= s.rewards[j].amount && read.referrals >= 1
    requires s.txs == map[1 := Reversing(s, j, Some(Reading(r, Some(read))))] && Reached(s, false)
    ensures v == Ledger(s.rewards[j := s.rewards[j].(status := ReversedReward)],
                        s.stats[r := Lowered(read, s.rewards[j].amount)], map[])
    ensures Reached(v, false)
  {
    var b := s.txs[1];
    var row := Lowered(read, s.rewards[j].amount);
    var written := CounterTx(b.effects, map[r := row], map[], None);
    assert b.due - {r} == map[] && s.txs[1 := written] == map[1 := written];
    Proceed(s, WriteRow(1), s.(txs := map[1 := written]), false);
    v := Act(s.(txs := map[1 := written]), Commit(1));
    AppliedAppend(s.rewards, [], b.effects[0]);
    assert [] + [b.effects[0]] == b.effects && s.stats + map[r := row] == s.stats[r := row];
    assert map[1 := written] - {1} == map[];
    Proceed(s.(txs := map[1 := written]), Commit(1), v, false);
  }

  /**
    From any state at rest with two pending rewards of one referrer there is a run that reverses both
    and loses one decrement: the row keeps one referral and one amount that no reward stands for.
   */
  lemma ADecrementCanBeLost(s: Ledger, i: nat, j: nat, r: nat) returns (v: Ledger)
    requires Reached(s, true) && s.txs == map[] && i < |s.rewards| && j < |s.rewards| && i != j
    requires s.rewards[i].status.PendingReward? && s.rewards[j].status.PendingReward?
    requires s.rewards[i].referrer == r && s.rewards[j].referrer == r
    ensures Reached(v, false) && v.txs == map[] && r in v.stats
    ensures v.rewards == s.rewards[i := s.rewards[i].(status := ReversedReward)][j := s.rewards[j].(status := ReversedReward)]
    ensures v.stats[r].pending == Sum(v.rewards, PendingFor(r)) + s.rewards[i].amount
    ensures v.stats[r].referrals as real == Sum(v.rewards, CountedFor(r)) + 1.0
  {
    Pending(s, i, j, r);
    var seen := Some(Reading(r, Some(s.stats[r])));
    BothHaveRead(s, i, j, r);
    var first := FirstCommits(s, i, Reversing(s, j, seen), r);
    assert Reversing(first, j, seen) == Reversing(s, j, seen);
    v := SecondCommits(first, j, r, s.stats[r]);
    ReachedIsSound(s);
    assert RowAgrees(s.rewards, s.stats, r);
    SumsAfterChange(s.rewards, i, first.rewards[i], r);
    SumsAfterChange(first.rewards, j, v.rewards[j], r);
  }

  /** There are such states. */
  lemma TwoPendingRewards() returns (s: Ledger)
    ensures Reached(s, true) && s.txs == map[] && |s.rewards| == 2
    ensures forall i :: 0 <= i < 2 ==> s.rewards[i].status.PendingReward? && s.rewards[i].referrer == 7
  {
    var a := Reward(7, 0, 100.0, PendingReward);
    var created := TwoCreations(a);
    s := Ledger([a, a], map[7 := Stats(2, 200.0, 0.0)], map[]);
    AppliedAppend([], [], Created(a));
    AppliedAppend([], [Created(a)], Created(a));
    assert [Created(a)] + [Created(a)] == [Created(a), Created(a)] && [] + [Created(a)] == [Created(a)];
    assert map[] + map[7 := Stats(2, 200.0, 0.0)] == map[7 := Stats(2, 200.0, 0.0)];
    assert map[0 := created.txs[0]] - {0} == map[];
    Proceed(created, Commit(0), s, true);
  }

  lemma TwoCreations(a: Reward) returns (s: Ledger)
    requires a == Reward(7, 0, 100.0, PendingReward)
    ensures Reached(s, true)
    ensures s == Ledger([], map[], map[0 := CounterTx([Created(a), Created(a)], map[7 := Stats(2, 200.0, 0.0)], map[], None)])
  {
    var begun := Ledger([], map[], map[0 := NEW_TX]);
    var once := Ledger([], map[], map[0 := CounterTx([Created(a)], map[7 := Stats(1, 100.0, 0.0)], map[], None)]);
    s := Ledger([], map[], map[0 := CounterTx([Created(a), Created(a)], map[7 := Stats(2, 200.0, 0.0)], map[], None)]);
    assert ValidHistory(EMPTY_LEDGER, [], true) && Later(EMPTY_LEDGER, []) == EMPTY_LEDGER;
    Proceed(EMPTY_LEDGER, Begin(0), begun, true);
    assert [] + [Created(a)] == [Created(a)] && [Created(a)] + [Created(a)] == [Created(a), Created(a)];
    assert map[0 := NEW_TX][0 := once.txs[0]] == map[0 := once.txs[0]];
    Proceed(begun, Create(0, a), once, true);
    assert map[7 := Stats(1, 100.0, 0.0)][7 := Stats(2, 200.0, 0.0)] == map[7 := Stats(2, 200.0, 0.0)];
    assert map[0 := once.txs[0]][0 := s.txs[0]] == map[0 := s.txs[0]];
    Proceed(once, Create(0, a), s, true);
  }
}
