/** Runs of the notification outbox that show the two minutes and the day are needed. */
module NotificationOutboxRuns {
  import opened NotificationOutbox

  function Row(status: Status, attempts: nat, updatedAt: nat): Event { Event(7, true, status, attempts, 0, updatedAt) }

  lemma Arrive(s: State, step: Step, d: Discipline, t: State)
    requires Reachable(s, d) && Enabled(s, step) && Keeps(s, step, d) && Do(s, step) == t
    ensures Reachable(t, d)
  {
    var u := Take(s, step, d);
  }

  /** Scheduler 0 reads a fresh row at time 0. */
  lemma FreshRowRead(d: Discipline) returns (s: State)
    ensures Reachable(s, d)
    ensures s == State(0, [Row(Pending, 0, 0)], {}, [], map[0 := Ticking(0, [Snapshot(0, Pending, 0)], map[])])
  {
    var seen := Snapshot(0, Pending, 0);
    s := FreshRow(d);
    var started := State(0, [Row(Pending, 0, 0)], {}, [], map[0 := Started(0)]);
    Arrive(s, StartTick(0), d, started);
    assert Snaps(started, [0]) == [seen];
    s := State(0, [Row(Pending, 0, 0)], {}, [], map[0 := Ticking(0, [seen], map[])]);
    Arrive(started, ReadCandidates(0, [0]), d, s);
  }

  lemma FreshRow(d: Discipline) returns (s: State)
    ensures Reachable(s, d)
    ensures s == State(0, [Row(Pending, 0, 0)], {}, [], map[])
  {
    var empty := State(0, [], {}, [], map[]);
    assert ValidRun(empty, [], d) && After(empty, []) == empty;
    s := State(0, [Row(Pending, 0, 0)], {}, [], map[]);
    Arrive(empty, WriteEvent(7, true), d, s);
  }

  /** Scheduler 0 claims it. */
  lemma FreshRowClaimed(d: Discipline) returns (s: State)
    ensures Reachable(s, d)
    ensures s == State(0, [Row(Processing, 1, 0)], {}, [], map[0 := StalledTick(Claimed)])
  {
    var read := FreshRowRead(d);
    assert [Snapshot(0, Pending, 0)][1..] == [];
    s := State(0, [Row(Processing, 1, 0)], {}, [], map[0 := StalledTick(Claimed)]);
    Arrive(read, Claim(0), d, s);
  }

  /** Scheduler 0 after claiming the row, stalled there. */
  function StalledTick(phase: Phase): SchedulerState { Ticking(0, [], map[0 := Flight(Snapshot(0, Pending, 0), 0, phase)]) }

  /** Two minutes later scheduler 1 reads the stale row. */
  lemma StaleRowRead() returns (s: State)
    ensures Reachable(s, Free)
    ensures s == State(PROCESSING_STALE_AFTER_MS, [Row(Processing, 1, 0)], {}, [],
      map[0 := StalledTick(Claimed), 1 := Ticking(PROCESSING_STALE_AFTER_MS, [Snapshot(0, Processing, 1)], map[])])
  {
    var late := PROCESSING_STALE_AFTER_MS;
    var claimed := FreshRowClaimed(Free);
    var later := State(late, [Row(Processing, 1, 0)], {}, [], map[0 := StalledTick(Claimed)]);
    Arrive(claimed, Advance(late), Free, later);
    var started := State(late, [Row(Processing, 1, 0)], {}, [], map[0 := StalledTick(Claimed), 1 := Started(late)]);
    Arrive(later, StartTick(1), Free, started);
    assert Snaps(started, [0]) == [Snapshot(0, Processing, 1)];
    s := State(late, [Row(Processing, 1, 0)], {}, [], map[0 := StalledTick(Claimed), 1 := Ticking(late, [Snapshot(0, Processing, 1)], map[])]);
    Arrive(started, ReadCandidates(1, [0]), Free, s);
  }

  /** It takes the row over. */
  lemma TakenOver() returns (s: State)
    ensures Reachable(s, Free)
    ensures s == State(PROCESSING_STALE_AFTER_MS, [Row(Processing, 1, PROCESSING_STALE_AFTER_MS)], {}, [],
      map[0 := StalledTick(Claimed),
          1 := Ticking(PROCESSING_STALE_AFTER_MS, [], map[0 := Flight(Snapshot(0, Processing, 1), PROCESSING_STALE_AFTER_MS, Claimed)])])
  {
    var late := PROCESSING_STALE_AFTER_MS;
    var seen := Snapshot(0, Processing, 1);
    var read := StaleRowRead();
    assert [seen][1..] == [];
    s := State(late, [Row(Processing, 1, late)], {}, [],
               map[0 := StalledTick(Claimed), 1 := Ticking(late, [], map[0 := Flight(seen, late, Claimed)])]);
    Arrive(read, Claim(1), Free, s);
  }

  /** It enqueues the row. */
  lemma EnqueuedBySecond() returns (s: State)
    ensures Reachable(s, Free)
    ensures s == State(PROCESSING_STALE_AFTER_MS, [Row(Processing, 1, PROCESSING_STALE_AFTER_MS)], {0}, [Job(0, PROCESSING_STALE_AFTER_MS)],
      map[0 := StalledTick(Claimed),
          1 := Ticking(PROCESSING_STALE_AFTER_MS, [], map[0 := Flight(Snapshot(0, Processing, 1), PROCESSING_STALE_AFTER_MS, Enqueued)])])
  {
    var late := PROCESSING_STALE_AFTER_MS;
    var seen := Snapshot(0, Processing, 1);
    var taken := TakenOver();
    assert map[0 := Flight(seen, late, Claimed)][0 := Flight(seen, late, Enqueued)] == map[0 := Flight(seen, late, Enqueued)];
    s := State(late, [Row(Processing, 1, late)], {0}, [Job(0, late)],
               map[0 := StalledTick(Claimed), 1 := Ticking(late, [], map[0 := Flight(seen, late, Enqueued)])]);
    Arrive(taken, Enqueue(1, 0), Free, s);
  }

  /** It marks the row dispatched. */
  lemma DispatchedBySecond() returns (s: State)
    ensures Reachable(s, Free)
    ensures s == State(PROCESSING_STALE_AFTER_MS, [Row(Dispatched, 1, PROCESSING_STALE_AFTER_MS)], {0}, [Job(0, PROCESSING_STALE_AFTER_MS)],
                       map[0 := StalledTick(Claimed), 1 := Ticking(PROCESSING_STALE_AFTER_MS, [], map[])])
  {
    var late := PROCESSING_STALE_AFTER_MS;
    var enqueued := EnqueuedBySecond();
    assert map[0 := Flight(Snapshot(0, Processing, 1), late, Enqueued)] - {0} == map[];
    s := State(late, [Row(Dispatched, 1, late)], {0}, [Job(0, late)], map[0 := StalledTick(Claimed), 1 := Ticking(late, [], map[])]);
    Arrive(enqueued, MarkDispatched(1, 0), Free, s);
  }

  /** Two schedulers and a flight of two minutes: the unfenced failure write undoes a dispatch that already happened. */
  lemma TwoSchedulersUndoADispatch() returns (s: State, t: State)
    ensures Reachable(s, Free) && Reachable(t, Free)
    ensures |s.events| == 1 && |t.events| == 1
    ensures s.events[0].status.Dispatched? && t.events[0].status.Failed?
    ensures Enabled(s, MarkFailed(0, 0)) && Do(s, MarkFailed(0, 0)) == t && s.now == PROCESSING_STALE_AFTER_MS
  {
    var late := PROCESSING_STALE_AFTER_MS;
    var before := DispatchedBySecond();
    s := State(late, [Row(Dispatched, 1, late)], {0}, [Job(0, late)], map[0 := StalledTick(Threw), 1 := Ticking(late, [], map[])]);
    var first := Snapshot(0, Pending, 0);
    assert map[0 := Flight(first, 0, Claimed)][0 := Flight(first, 0, Threw)] == map[0 := Flight(first, 0, Threw)];
    Arrive(before, EnqueueThrows(0, 0), Free, s);
    t := Do(s, MarkFailed(0, 0));
    Arrive(s, MarkFailed(0, 0), Free, t);
  }

  lemma FreshRowEnqueued() returns (s: State)
    ensures Reachable(s, Alone)
    ensures s == State(0, [Row(Processing, 1, 0)], {0}, [Job(0, 0)], map[0 := StalledTick(Enqueued)])
  {
    var first := Snapshot(0, Pending, 0);
    var claimed := FreshRowClaimed(Alone);
    assert map[0 := Flight(first, 0, Claimed)][0 := Flight(first, 0, Enqueued)] == map[0 := Flight(first, 0, Enqueued)];
    s := State(0, [Row(Processing, 1, 0)], {0}, [Job(0, 0)], map[0 := StalledTick(Enqueued)]);
    Arrive(claimed, Enqueue(0, 0), Alone, s);
  }

  /** A scheduler crashes after its enqueue, before its DISPATCHED write. */
  lemma CrashedAfterEnqueue() returns (s: State)
    ensures Reachable(s, Alone)
    ensures s == State(0, [Row(Processing, 1, 0)], {0}, [Job(0, 0)], map[0 := Idle])
  {
    var enqueued := FreshRowEnqueued();
    s := State(0, [Row(Processing, 1, 0)], {0}, [Job(0, 0)], map[0 := Idle]);
    Arrive(enqueued, Crash(0), Alone, s);
  }

  /** Nothing runs for a day, and the queue drops the job. */
  lemma ForgottenAfterADay() returns (s: State)
    ensures Reachable(s, Alone)
    ensures s == State(JOB_RETENTION_MS, [Row(Processing, 1, 0)], {}, [Job(0, 0)], map[0 := Idle])
  {
    var crashed := CrashedAfterEnqueue();
    var later := State(JOB_RETENTION_MS, [Row(Processing, 1, 0)], {0}, [Job(0, 0)], map[0 := Idle]);
    Arrive(crashed, Advance(JOB_RETENTION_MS), Alone, later);
    s := State(JOB_RETENTION_MS, [Row(Processing, 1, 0)], {}, [Job(0, 0)], map[0 := Idle]);
    Arrive(later, Forget(0), Alone, s);
  }

  lemma ReadAfterADay() returns (s: State)
    ensures Reachable(s, Alone)
    ensures s == State(JOB_RETENTION_MS, [Row(Processing, 1, 0)], {}, [Job(0, 0)],
                       map[0 := Ticking(JOB_RETENTION_MS, [Snapshot(0, Processing, 1)], map[])])
  {
    var late := JOB_RETENTION_MS;
    var seen := Snapshot(0, Processing, 1);
    var forgotten := ForgottenAfterADay();
    var started := State(late, [Row(Processing, 1, 0)], {}, [Job(0, 0)], map[0 := Started(late)]);
    Arrive(forgotten, StartTick(0), Alone, started);
    assert Snaps(started, [0]) == [seen];
    s := State(late, [Row(Processing, 1, 0)], {}, [Job(0, 0)], map[0 := Ticking(late, [seen], map[])]);
    Arrive(started, ReadCandidates(0, [0]), Alone, s);
  }

  /** Even with one scheduler at a time: after an outage of a day the same notification is queued a second time. */
  lemma DayLongOutageQueuesTwice() returns (s: State)
    ensures Reachable(s, Alone) && s.accepted == [Job(0, 0), Job(0, JOB_RETENTION_MS)]
  {
    var late := JOB_RETENTION_MS;
    var seen := Snapshot(0, Processing, 1);
    var read := ReadAfterADay();
    assert [seen][1..] == [];
    var claimed := State(late, [Row(Processing, 1, late)], {}, [Job(0, 0)], map[0 := Ticking(late, [], map[0 := Flight(seen, late, Claimed)])]);
    Arrive(read, Claim(0), Alone, claimed);
    s := Take(claimed, Enqueue(0, 0), Alone);
  }
}
