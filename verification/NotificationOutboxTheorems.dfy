/**
  What the notification outbox promises over every run: attempts, terminal rows and stale reclaims
  for any number of schedulers, exactly when an unfenced write is safe, and exactly when the queue
  can take up a second job for a row.
 */
module NotificationOutboxTheorems {
  import opened Foundations
  import opened NotificationOutbox
  import DomainOutbox

  /**
    One scheduler at a time, or any number of schedulers whose flights land within two minutes of
    their claims: either way every unfenced write meets the row as its flight's claim left it.
   */
  lemma EveryLandingMeets(init: State, run: seq<Step>, d: Discipline)
    requires Initial(init) && ValidRun(init, run, d) && (d.Alone? || d.Timely?)
    ensures ValidRun(init, run, Meeting)
  {
    RunKeepsInv(init, run, d);
  }

  /**
    When a row is due: a waiting one from its next attempt on, a claimed one two minutes after its
    claim, a settled one never. A claim succeeds on a due row, claimed or not as it was read.
   */
  lemma DueFrom(e: Event, tick: nat, seen: Status)
    ensures e.status.Pending? || e.status.Failed? ==> (IsCandidate(e, tick) <==> e.nextAttemptAt <= tick)
    ensures e.status.Processing? ==> (IsCandidate(e, tick) <==> e.updatedAt + 120_000 <= tick)
    ensures e.status.Dispatched? || e.status.DeadLetter? ==> !IsCandidate(e, tick)
    ensures ClaimMatches(seen, e, tick) <==> IsCandidate(e, tick) && (seen.Processing? <==> e.status.Processing?)
  {}

  /**
    What the statements leave behind: a claimed row is hidden for two minutes, a failed one until its
    backoff is over, unless that was its eighth attempt; the other rows are settled.
   */
  lemma WrittenRowsFallDue(e: Event, seen: Status, attempt: nat, now: nat, t: nat)
    ensures var c := ClaimRow(seen, e, now);
      && c.attempts == (if seen.Processing? then e.attempts else e.attempts + 1) && (IsCandidate(c, t) <==> now + 120_000 <= t)
      && c.dedupeKey == e.dedupeKey && c.payloadOk == e.payloadOk && c.nextAttemptAt == e.nextAttemptAt && c.updatedAt == now
    ensures !IsCandidate(DispatchRow(e, now), t) && !IsCandidate(ScrubRow(e, now), t)
    ensures DispatchRow(e, now).attempts == ScrubRow(e, now).attempts == FailRow(e, attempt, now).attempts == e.attempts
    ensures DispatchRow(e, now).status.Dispatched? && ScrubRow(e, now).status.DeadLetter?
    ensures attempt >= 8 ==> FailRow(e, attempt, now).status.DeadLetter?
    ensures attempt < 8 ==>
      && FailRow(e, attempt, now).status.Failed?
      && (IsCandidate(FailRow(e, attempt, now), t) <==> now + DomainOutbox.BackoffMs(attempt) <= t)
  {}

  /** A tick has five flights under way at most, and takes up the next row as soon as it has fewer. */
  lemma AtMostFiveInFlight(s: State, d: Discipline, k: nat)
    requires Reachable(s, d) && SchedulerOf(s, k).Ticking?
    ensures |SchedulerOf(s, k).flights| <= 5
    ensures Enabled(s, Claim(k)) <==>
      SchedulerOf(s, k).waiting != [] && SchedulerOf(s, k).waiting[0].id < |s.events| && |SchedulerOf(s, k).flights| != 5
  {
    var init, run :| Initial(init) && ValidRun(init, run, d) && After(init, run) == s;
    RunKeepsFive(init, run, d);
  }

  ghost predicate FiveInFlight(s: State)
  {
    forall k :: k in s.schedulers && s.schedulers[k].Ticking? ==> |s.schedulers[k].flights| <= 5
  }

  lemma {:induction false} RunKeepsFive(s: State, run: seq<Step>, d: Discipline)
    requires FiveInFlight(s) && ValidRun(s, run, d)
    ensures FiveInFlight(After(s, run))
    decreases |run|
  {
    if run != [] {
      StepKeepsFive(s, run[0]);
      RunKeepsFive(Do(s, run[0]), run[1..], d);
    }
  }

  lemma StepKeepsFive(s: State, step: Step)
    requires FiveInFlight(s) && Enabled(s, step)
    ensures FiveInFlight(Do(s, step))
  {
    if step.Scrub? || step.MarkDispatched? || step.MarkFailed? || step.Abandon? {
      var flights := s.schedulers[step.k].flights;
      assert Do(s, step).schedulers[step.k].flights.Keys == flights.Keys - {step.id};
      assert |flights - {step.id}| == |(flights - {step.id}).Keys| <= |flights.Keys| == |flights|;
    }
  }

  /** As long as every landing meets its row, crashes included, no row uses more than eight attempts. */
  lemma AttemptsAreBounded(s: State, d: Discipline, id: nat)
    requires Reachable(s, d) && !d.Free? && id < |s.events|
    ensures s.events[id].attempts <= 8
    ensures s.events[id].status.Failed? ==> 1 <= s.events[id].attempts < 8
    ensures s.events[id].status.Dispatched? ==> WasAccepted(s, id)
  {
    ReachableInv(s, d);
  }

  /** A claim that takes over a stale row repeats its attempt; every other claim uses a new one. */
  lemma StaleReclaimUsesNoAttempt(s: State, d: Discipline, k: nat)
    requires Reachable(s, d) && !d.Free? && Enabled(s, Claim(k))
    requires var seen := SchedulerOf(s, k).waiting[0]; ClaimMatches(seen.status, s.events[seen.id], SchedulerOf(s, k).tick)
    ensures var seen := SchedulerOf(s, k).waiting[0];
      var t := Do(s, Claim(k));
      && t.events[seen.id].attempts == seen.CurrentAttempt()
      && t.events[seen.id].attempts == s.events[seen.id].attempts + (if s.events[seen.id].status.Processing? then 0 else 1)
  {
    ReachableInv(s, d);
    assert TickOk(s, s.schedulers[k]);
  }

  /** A failed dispatch at the eighth attempt is the row's last: it ends in DEAD_LETTER. */
  lemma EighthFailureIsFinal(s: State, d: Discipline, k: nat, id: nat)
    requires Reachable(s, d) && !d.Free? && Enabled(s, MarkFailed(k, id)) && Keeps(s, MarkFailed(k, id), d)
    ensures Do(s, MarkFailed(k, id)).events[id].status ==
      if s.events[id].attempts == 8 then DeadLetter else Failed
  {
    ReachableInv(s, d);
    LandingMeets(s, MarkFailed(k, id), d);
  }

  /** DISPATCHED and DEAD_LETTER rows never change, through a whole run, for any number of schedulers. */
  lemma TerminalRowsNeverChange(s: State, run: seq<Step>, d: Discipline, id: nat)
    requires Reachable(s, d) && !d.Free? && ValidRun(s, run, d)
    requires id < |s.events| && s.events[id].status.Terminal()
    ensures id < |After(s, run).events| && After(s, run).events[id] == s.events[id]
  {
    ReachableInv(s, d);
    TerminalRowStays(s, run, d, id);
  }

  lemma {:induction false} TerminalRowStays(s: State, run: seq<Step>, d: Discipline, id: nat)
    requires Inv(s, d) && !d.Free? && ValidRun(s, run, d)
    requires id < |s.events| && s.events[id].status.Terminal()
    ensures id < |After(s, run).events| && After(s, run).events[id] == s.events[id]
    decreases |run|
  {
    if run != [] {
      TerminalRowSurvives(s, run[0], d, id);
      StepKeepsInv(s, run[0], d);
      TerminalRowStays(Do(s, run[0]), run[1..], d, id);
    }
  }

  lemma TerminalRowSurvives(s: State, step: Step, d: Discipline, id: nat)
    requires Inv(s, d) && !d.Free? && Enabled(s, step) && Keeps(s, step, d)
    requires id < |s.events| && s.events[id].status.Terminal()
    ensures id < |Do(s, step).events| && Do(s, step).events[id] == s.events[id]
  {
    if step.Landing() { LandingMeets(s, step, d); }
  }

  /** An open row is a candidate fifteen minutes after its last write, and stays one. */
  lemma OpenRowsFallDue(s: State, d: Discipline, id: nat, tick: nat)
    requires Reachable(s, d) && !d.Free? && id < |s.events| && !s.events[id].status.Terminal()
    requires tick >= s.events[id].updatedAt + 900_000
    ensures IsCandidate(s.events[id], tick)
  {
    ReachableInv(s, d);
  }

  // ----- exactly when a landing is safe

  /** Whatever the other schedulers do, a flight less than two minutes old meets its row. */
  lemma FlightsInTimeMeet(s: State, d: Discipline, k: nat, id: nat)
    requires Reachable(s, d) && !d.Free? && Flying(s, k, id) && s.now < FlightOf(s, k, id).claimedAt + 120_000
    ensures Meets(s.events[id], FlightOf(s, k, id))
    ensures forall l: nat :: l != k && Flying(s, l, id) ==> s.now >= FlightOf(s, l, id).claimedAt + 120_000
  {
    ReachableInv(s, d);
    forall l: nat | l != k && Flying(s, l, id) ensures !InTime(FlightOf(s, l, id), s.now) {
      assert !BothMeet(s, k, l, id);
    }
  }

  /** A claim hides its row from every tick under way if and only if less than two minutes have passed. */
  lemma ClaimHidesRowIffTimely(seen: Status, e: Event, claimedAt: nat, now: nat)
    requires claimedAt <= now
    ensures (forall status: Status, tick: nat :: tick <= now ==> !ClaimMatches(status, ClaimRow(seen, e, claimedAt), tick))
      <==> now < claimedAt + 120_000
  {
    assert ClaimMatches(Processing, ClaimRow(seen, e, claimedAt), now) <==> claimedAt + PROCESSING_STALE_AFTER_MS <= now;
  }

  /**
    The bound is exact: once a flight is two minutes old, any idle scheduler can take its row, and
    the flight, still under way, no longer meets it.
   */
  lemma OverdueFlightCanBeOverrun(s: State, k: nat, l: nat, id: nat) returns (t: State)
    requires Reachable(s, Meeting) && Flying(s, k, id) && Meets(s.events[id], FlightOf(s, k, id))
    requires k != l && SchedulerOf(s, l).Idle? && s.now >= FlightOf(s, k, id).claimedAt + 120_000
    ensures Reachable(t, Meeting) && Flying(t, k, id) && FlightOf(t, k, id) == FlightOf(s, k, id)
    ensures !Meets(t.events[id], FlightOf(t, k, id))
  {
    t := Take(s, StartTick(l), Meeting);
    t := Take(t, ReadCandidates(l, [id]), Meeting);
    assert t.schedulers[l].waiting[0] == Snap(s, id);
    t := Take(t, Claim(l), Meeting);
  }

  // ----- one job per row

  ghost predicate OneJobEach(accepted: seq<Job>)
  {
    forall i, j :: 0 <= i < j < |accepted| ==> accepted[i].id != accepted[j].id
  }

  /** The step enqueues a row again after the queue has forgotten its job. */
  ghost predicate Repeats(s: State, step: Step)
  {
    step.Enqueue? && step.id !in s.queue && WasAccepted(s, step.id)
  }

  ghost predicate NeverRepeats(s: State, run: seq<Step>)
    decreases |run|
  {
    run != [] && Enabled(s, run[0]) ==> !Repeats(s, run[0]) && NeverRepeats(Do(s, run[0]), run[1..])
  }

  /** Every enqueue comes within a day of the last job the queue accepted for its row. */
  ghost predicate WithinRetention(s: State, run: seq<Step>)
    decreases |run|
  {
    run != [] && Enabled(s, run[0]) ==>
      (run[0].Enqueue? && WasAccepted(s, run[0].id) ==>
        exists i :: 0 <= i < |s.accepted| && s.accepted[i].id == run[0].id && s.now < s.accepted[i].at + 86_400_000)
      && WithinRetention(Do(s, run[0]), run[1..])
  }

  lemma QueueSurvives(s: State, step: Step)
    requires QueueOk(s) && Enabled(s, step)
    ensures QueueOk(Do(s, step)) && s.accepted <= Do(s, step).accepted
  {
    var t := Do(s, step);
    AcceptedSurvives(s, t);
    if step.Enqueue? && step.id !in s.queue { assert t.accepted[|s.accepted|].id == step.id; }
  }

  /**
    However often a row is retried or reclaimed, and whatever the schedulers do to each other, every
    row gets at most one job exactly when no enqueue comes after the queue has forgotten the job before.
   */
  lemma {:induction false} OneJobPerRowIff(s: State, run: seq<Step>, d: Discipline)
    requires QueueOk(s) && ValidRun(s, run, d)
    ensures OneJobEach(After(s, run).accepted) <==> OneJobEach(s.accepted) && NeverRepeats(s, run)
    decreases |run|
  {
    if run != [] {
      var t := Do(s, run[0]);
      QueueSurvives(s, run[0]);
      OneJobPerRowIff(t, run[1..], d);
      OneMoreJob(s, run[0]);
    }
  }

  lemma OneMoreJob(s: State, step: Step)
    requires QueueOk(s) && Enabled(s, step)
    ensures OneJobEach(Do(s, step).accepted) <==> OneJobEach(s.accepted) && !Repeats(s, step)
  {
    var t := Do(s, step);
    var n := |s.accepted|;
    if step.Enqueue? && step.id !in s.queue {
      assert t.accepted[n].id == step.id;
      assert forall i :: 0 <= i < n ==> t.accepted[i] == s.accepted[i];
      if Repeats(s, step) {
        var i :| 0 <= i < n && s.accepted[i].id == step.id;
        assert t.accepted[i].id == t.accepted[n].id;
      }
      if OneJobEach(t.accepted) {
        forall i, j | 0 <= i < j < n ensures s.accepted[i].id != s.accepted[j].id {
          assert t.accepted[i].id != t.accepted[j].id;
        }
      }
    } else {
      assert t.accepted == s.accepted;
    }
  }

  /** Retries within the retention never repeat a job, since the queue still knows it. */
  lemma {:induction false} RetentionCovers(s: State, run: seq<Step>, d: Discipline)
    requires QueueOk(s) && ValidRun(s, run, d) && WithinRetention(s, run)
    ensures NeverRepeats(s, run)
    decreases |run|
  {
    if run != [] {
      QueueSurvives(s, run[0]);
      RetentionCovers(Do(s, run[0]), run[1..], d);
    }
  }

  lemma RetentionKeepsOneJob(init: State, run: seq<Step>, d: Discipline)
    requires Initial(init) && ValidRun(init, run, d) && WithinRetention(init, run)
    ensures OneJobEach(After(init, run).accepted)
  {
    RetentionCovers(init, run, d);
    OneJobPerRowIff(init, run, d);
  }

  /**
    The day is exact: an enqueue of a row that has had one job can add a second, the queue having
    forgotten the first by then, if and only if the first was accepted a day ago or longer.
   */
  lemma SecondJobPossibleIff(s: State, d: Discipline, k: nat, id: nat, i: nat)
    requires Reachable(s, d) && Enabled(s, Enqueue(k, id)) && OneJobEach(s.accepted)
    requires i < |s.accepted| && s.accepted[i].id == id
    ensures Repeats(s, Enqueue(k, id)) || (Enabled(s, Forget(id)) && Repeats(Do(s, Forget(id)), Enqueue(k, id)))
      <==> s.accepted[i].at + 86_400_000 <= s.now
  {
    ReachableQueueOk(s, d);
    assert WasAccepted(s, id);
    if id in s.queue && s.accepted[i].at + 86_400_000 <= s.now {
      assert forall j :: 0 <= j < |s.accepted| && s.accepted[j].id == id ==> j == i;
      assert Enabled(s, Forget(id));
      assert WasAccepted(Do(s, Forget(id)), id);
    }
  }

  lemma ReachableQueueOk(s: State, d: Discipline)
    requires Reachable(s, d)
    ensures QueueOk(s)
  {
    var init, run :| Initial(init) && ValidRun(init, run, d) && After(init, run) == s;
    RunKeepsQueue(init, run, d);
  }

  lemma {:induction false} RunKeepsQueue(s: State, run: seq<Step>, d: Discipline)
    requires QueueOk(s) && ValidRun(s, run, d)
    ensures QueueOk(After(s, run))
    decreases |run|
  {
    if run != [] {
      QueueSurvives(s, run[0]);
      RunKeepsQueue(Do(s, run[0]), run[1..], d);
    }
  }
}
