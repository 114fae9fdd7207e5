/**
  The code that drives the domain outbox: the service, its cron scheduler and the queue processor.
  Each method is proved against the row functions of `DomainOutbox`, and a whole tick is proved to
  be a run of that state machine, so what holds of every run holds of it.
 */
module DomainOutboxRuntime {
  import opened Foundations
  import opened DomainOutbox

  /** What processing one candidate leaves in its row when nobody else touches it meanwhile. */
  function ProcessedRow(e: Event, seen: Snapshot, tick: nat, now: nat, faults: Faults): Event
  {
    if faults.claim || !ClaimMatches(seen.status, e, tick) then e
    else if faults.Dispatches() then DispatchRow(ClaimRow(e, now), tick, now)
    else if faults.failure then ClaimRow(e, now)
    else FailRow(ClaimRow(e, now), seen.attempts + 1, false, now)
  }

  /** A row after an undisturbed tick: only the chosen rows move, each from the state it was read in. */
  function RowAfterTick(events: seq<Event>, id: nat, chosen: seq<nat>, now: nat, faults: nat -> Faults): Event
    requires id < |events|
  {
    var e := events[id];
    if id in chosen then ProcessedRow(e, Snapshot(id, e.status, e.attempts), now, now, faults(id)) else e
  }

  /** The jobs a tick adds, in the order of the rows it took up. */
  function JobsAdded(events: seq<Event>, chosen: seq<nat>, faults: nat -> Faults): seq<Job>
    requires forall i :: 0 <= i < |chosen| ==> chosen[i] < |events|
  {
    if chosen == [] then []
    else
      var last := chosen[|chosen| - 1];
      JobsAdded(events, chosen[..|chosen| - 1], faults)
      + (if faults(last).Queues() then [Job(last, events[last].attempts + 1)] else [])
  }

  /** How many of the rows a tick took up it dispatched. */
  function DispatchCount(chosen: seq<nat>, faults: nat -> Faults): nat
  {
    if chosen == [] then 0
    else DispatchCount(chosen[..|chosen| - 1], faults) + (if faults(chosen[|chosen| - 1]).Dispatches() then 1 else 0)
  }

  predicate EarlierDue(events: seq<Event>, i: nat, j: nat)
    requires i < |events| && j < |events|
  {
    events[i].nextAttemptAt < events[j].nextAttemptAt
    || (events[i].nextAttemptAt == events[j].nextAttemptAt && i < j)
  }

  /** Ids in the order of `orderBy nextAttemptAt, createdAt`; ids grow with creation time. */
  ghost predicate InDueOrder(events: seq<Event>, ids: seq<nat>)
  {
    && (forall i :: 0 <= i < |ids| ==> ids[i] < |events|)
    && (forall i, j :: 0 <= i < j < |ids| ==> EarlierDue(events, ids[i], ids[j]))
  }

  // ----- one process alone, as runs of the state machine

  /** The tables with a single scheduler and a single worker. */
  function Solo(now: nat, events: seq<Event>, queue: seq<Job>, finished: set<Job>, p: SchedulerState, w: WorkerState): State
  {
    State(now, events, queue, finished, map[0 := p], map[0 := w])
  }

  lemma Follow(s: State, step: Step, t: State)
    requires Reachable(s, true) && Enabled(s, step) && Timely(s, step) && Do(s, step) == t
    ensures Reachable(t, true)
  {
    var u := Take(s, step, true);
  }

  lemma SoloBegin(now: nat, events: seq<Event>, queue: seq<Job>, finished: set<Job>, ids: seq<nat>, read: seq<Snapshot>)
    requires Reachable(Solo(now, events, queue, finished, Idle, Free), true)
    requires forall i :: 0 <= i < |ids| ==> ids[i] < |events| && IsCandidate(events[ids[i]], now)
    requires |read| == |ids|
    requires forall i :: 0 <= i < |ids| ==> read[i] == Snapshot(ids[i], events[ids[i]].status, events[ids[i]].attempts)
    ensures Reachable(Solo(now, events, queue, finished, Looping(now, read), Free), true)
  {
    var started := Solo(now, events, queue, finished, Started(now), Free);
    Follow(Solo(now, events, queue, finished, Idle, Free), StartTick(0), started);
    assert Snaps(started, ids) == read;
    Follow(started, ReadCandidates(0, ids), Solo(now, events, queue, finished, Looping(now, read), Free));
  }

  lemma SoloEnd(now: nat, events: seq<Event>, queue: seq<Job>, finished: set<Job>, tick: nat)
    requires Reachable(Solo(now, events, queue, finished, Looping(tick, []), Free), true)
    ensures Reachable(Solo(now, events, queue, finished, Idle, Free), true)
  {
    Follow(Solo(now, events, queue, finished, Looping(tick, []), Free), EndTick(0), Solo(now, events, queue, finished, Idle, Free));
  }

  lemma SoloCreate(now: nat, events: seq<Event>, queue: seq<Job>, finished: set<Job>, eventType: EventType, aggregateId: nat)
    requires Reachable(Solo(now, events, queue, finished, Idle, Free), true)
    requires forall i :: 0 <= i < |events| ==> !SameDedupeKey(events[i], eventType, aggregateId)
    ensures Reachable(Solo(now, events + [Event(eventType, aggregateId, Pending, 0, now, now, None)], queue, finished, Idle, Free), true)
  {
    Follow(Solo(now, events, queue, finished, Idle, Free), CreateEvent(eventType, aggregateId),
           Solo(now, events + [Event(eventType, aggregateId, Pending, 0, now, now, None)], queue, finished, Idle, Free));
  }

  lemma SoloClaim(now: nat, events: seq<Event>, queue: seq<Job>, finished: set<Job>, event: Snapshot, rest: seq<Snapshot>)
    requires event.id < |events|
    requires Reachable(Solo(now, events, queue, finished, Looping(now, [event] + rest), Free), true)
    ensures if ClaimMatches(event.status, events[event.id], now) then
        Reachable(Solo(now, events[event.id := ClaimRow(events[event.id], now)], queue, finished, Claimed(now, event, rest), Free), true)
      else
        Reachable(Solo(now, events, queue, finished, Looping(now, rest), Free), true)
  {
    assert ([event] + rest)[1..] == rest;
    var s := Solo(now, events, queue, finished, Looping(now, [event] + rest), Free);
    Follow(s, Claim(0), Do(s, Claim(0)));
  }

  lemma SoloClaimThrows(now: nat, events: seq<Event>, queue: seq<Job>, finished: set<Job>, event: Snapshot, rest: seq<Snapshot>)
    requires Reachable(Solo(now, events, queue, finished, Looping(now, [event] + rest), Free), true)
    ensures Reachable(Solo(now, events, queue, finished, Looping(now, rest), Free), true)
  {
    assert ([event] + rest)[1..] == rest;
    Follow(Solo(now, events, queue, finished, Looping(now, [event] + rest), Free), ClaimThrows(0),
           Solo(now, events, queue, finished, Looping(now, rest), Free));
  }

  /** The whole of `processEvent`, undisturbed, leads from one reachable state to another. */
  lemma SoloProcess(now: nat, events: seq<Event>, queue: seq<Job>, finished: set<Job>,
                    event: Snapshot, rest: seq<Snapshot>, faults: Faults)
    requires event.id < |events|
    requires Reachable(Solo(now, events, queue, finished, Looping(now, [event] + rest), Free), true)
    ensures Reachable(Solo(now,
      events[event.id := ProcessedRow(events[event.id], event, now, now, faults)],
      if ClaimMatches(event.status, events[event.id], now) && faults.Queues() then queue + [Job(event.id, event.attempts + 1)] else queue,
      finished, Looping(now, rest), Free), true)
  {
    var e := events[event.id];
    assert events[event.id := e] == events;
    if faults.claim {
      SoloClaimThrows(now, events, queue, finished, event, rest);
    } else {
      SoloClaim(now, events, queue, finished, event, rest);
      if ClaimMatches(event.status, e, now) {
        var claimed := events[event.id := ClaimRow(e, now)];
        assert claimed[event.id := ProcessedRow(e, event, now, now, faults)] == events[event.id := ProcessedRow(e, event, now, now, faults)];
        if faults.enqueue {
          SoloReject(now, claimed, queue, finished, event, rest, faults.failure);
        } else {
          SoloDispatch(now, claimed, queue, finished, event, rest, faults);
        }
      }
    }
  }

  /** After a throw: the failure write, unless that throws too and leaves the claimed row to the next reclaim. */
  lemma SoloFailed(now: nat, events: seq<Event>, queue: seq<Job>, finished: set<Job>, event: Snapshot, rest: seq<Snapshot>, failure: bool)
    requires event.id < |events|
    requires Reachable(Solo(now, events, queue, finished, DispatchThrew(now, event, rest), Free), true)
    ensures Reachable(Solo(now, events[event.id := if failure then events[event.id] else FailRow(events[event.id], event.attempts + 1, false, now)],
      queue, finished, Looping(now, rest), Free), true)
  {
    var threw := Solo(now, events, queue, finished, DispatchThrew(now, event, rest), Free);
    if failure {
      assert events[event.id := events[event.id]] == events;
      Follow(threw, MarkUndispatchedThrows(0), Solo(now, events, queue, finished, Looping(now, rest), Free));
    } else {
      Follow(threw, MarkUndispatched(0), Solo(now, events[event.id := FailRow(events[event.id], event.attempts + 1, false, now)],
        queue, finished, Looping(now, rest), Free));
    }
  }

  lemma SoloReject(now: nat, events: seq<Event>, queue: seq<Job>, finished: set<Job>, event: Snapshot, rest: seq<Snapshot>, failure: bool)
    requires event.id < |events|
    requires Reachable(Solo(now, events, queue, finished, Claimed(now, event, rest), Free), true)
    ensures Reachable(Solo(now, events[event.id := if failure then events[event.id] else FailRow(events[event.id], event.attempts + 1, false, now)],
      queue, finished, Looping(now, rest), Free), true)
  {
    Follow(Solo(now, events, queue, finished, Claimed(now, event, rest), Free), EnqueueThrows(0),
           Solo(now, events, queue, finished, DispatchThrew(now, event, rest), Free));
    SoloFailed(now, events, queue, finished, event, rest, failure);
  }

  lemma SoloDispatch(now: nat, events: seq<Event>, queue: seq<Job>, finished: set<Job>, event: Snapshot, rest: seq<Snapshot>, faults: Faults)
    requires event.id < |events|
    requires Reachable(Solo(now, events, queue, finished, Claimed(now, event, rest), Free), true)
    ensures var e := events[event.id];
      Reachable(Solo(now, events[event.id := if !faults.write then DispatchRow(e, now, now)
                                             else if faults.failure then e else FailRow(e, event.attempts + 1, false, now)],
        queue + [Job(event.id, event.attempts + 1)], finished, Looping(now, rest), Free), true)
  {
    var jobs := queue + [Job(event.id, event.attempts + 1)];
    var enqueued := Solo(now, events, jobs, finished, Enqueued(now, event, rest), Free);
    Follow(Solo(now, events, queue, finished, Claimed(now, event, rest), Free), Enqueue(0), enqueued);
    if faults.write {
      Follow(enqueued, MarkDispatchedThrows(0), Solo(now, events, jobs, finished, DispatchThrew(now, event, rest), Free));
      SoloFailed(now, events, jobs, finished, event, rest, faults.failure);
    } else {
      Follow(enqueued, MarkDispatched(0), Solo(now, events[event.id := DispatchRow(events[event.id], now, now)],
        jobs, finished, Looping(now, rest), Free));
    }
  }

  /** What the candidate query returns of the rows it selects. */
  function Read(events: seq<Event>, ids: seq<nat>): (r: seq<Snapshot>)
    requires forall i :: 0 <= i < |ids| ==> ids[i] < |events|
    ensures |r| == |ids|
    ensures forall i :: 0 <= i < |ids| ==> r[i] == Snapshot(ids[i], events[ids[i]].status, events[ids[i]].attempts)
  {
    seq(|ids|, i requires 0 <= i < |ids| => Snapshot(ids[i], events[ids[i]].status, events[ids[i]].attempts))
  }

  /** The table after a tick has dealt with the rows in `done`. */
  ghost predicate AfterTick(table: seq<Event>, events: seq<Event>, done: seq<nat>, tick: nat, faults: nat -> Faults)
  {
    |events| == |table| && forall id: nat :: id < |events| ==> events[id] == RowAfterTick(table, id, done, tick, faults)
  }

  /** One more row of the tick is done. */
  lemma OneMoreProcessed(queue: seq<Job>, table: seq<Event>, before: seq<Event>, after: seq<Event>, ids: seq<nat>, n: nat, tick: nat, faults: nat -> Faults)
    requires InDueOrder(table, ids) && n < |ids| && AfterTick(table, before, ids[..n], tick, faults)
    requires var id := ids[n];
      after == before[id := ProcessedRow(before[id], Snapshot(id, table[id].status, table[id].attempts), tick, tick, faults(id))]
    ensures AfterTick(table, after, ids[..n + 1], tick, faults)
    ensures queue + JobsAdded(table, ids[..n + 1], faults)
         == (queue + JobsAdded(table, ids[..n], faults)) + (if faults(ids[n]).Queues() then [Job(ids[n], table[ids[n]].attempts + 1)] else [])
    ensures DispatchCount(ids[..n + 1], faults) == DispatchCount(ids[..n], faults) + (if faults(ids[n]).Dispatches() then 1 else 0)
  {
    assert ids[n] !in ids[..n];
    assert ids[..n + 1] == ids[..n] + [ids[n]] && ids[..n + 1][..n] == ids[..n];
  }

  /** A row not yet dealt with is as it was read. */
  lemma NotYetProcessed(table: seq<Event>, events: seq<Event>, ids: seq<nat>, n: nat, tick: nat, faults: nat -> Faults)
    requires InDueOrder(table, ids) && n < |ids| && AfterTick(table, events, ids[..n], tick, faults)
    requires IsCandidate(table[ids[n]], tick)
    ensures ids[n] < |events| && events[ids[n]] == table[ids[n]] && ClaimMatches(table[ids[n]].status, events[ids[n]], tick)
  {
    assert ids[n] !in ids[..n];
  }

  class DomainOutboxService {
    var clock: nat
    var events: seq<Event>
    var queue: seq<Job>
    ghost var finished: set<Job>

    /** The database and the queue as the state machine sees them, with this process as scheduler 0. */
    ghost function View(p: SchedulerState, w: WorkerState): State
      reads this
    {
      Solo(clock, events, queue, finished, p, w)
    }

    /** The tables are in a state some timely run leads to, so everything proved of runs applies to them. */
    ghost predicate Valid()
      reads this
    {
      Reachable(View(Idle, Free), true)
    }

    constructor ()
      ensures Valid() && clock == 0 && events == [] && queue == []
    {
      clock, events, queue, finished := 0, [], [], {};
      new;
      ghost var s := State(0, [], [], {}, map[], map[]);
      assert ValidRun(s, [], true) && After(s, []) == s;
      s := Take(s, CrashScheduler(0), true);
      s := Take(s, CrashWorker(0), true);
    }

    method Wait(ms: nat)
      requires Valid()
      modifies this`clock
      ensures Valid() && clock == old(clock) + ms
    {
      Follow(View(Idle, Free), Advance(ms), View(Idle, Free).(now := clock + ms));
      clock := clock + ms;
    }

    /** Inserts the events whose dedupe key is new. */
    method CreateMany(inputs: seq<(EventType, nat)>) returns (count: nat)
      requires Valid()
      modifies this`events
      ensures Valid()
      ensures old(events) <= events && count == |events| - |old(events)|
      ensures forall i :: |old(events)| <= i < |events| ==>
        events[i].status.Pending? && events[i].attempts == 0 && (events[i].eventType, events[i].aggregateId) in inputs
      ensures forall i :: 0 <= i < |inputs| ==> HasKey(inputs[i].0, inputs[i].1)
      ensures forall i, j :: |old(events)| <= j < |events| && 0 <= i < j ==>
        !SameDedupeKey(events[i], events[j].eventType, events[j].aggregateId)
    {
      count := 0;
      for n := 0 to |inputs|
        invariant Valid()
        invariant old(events) <= events && count == |events| - |old(events)|
        invariant forall i :: |old(events)| <= i < |events| ==>
          events[i].status.Pending? && events[i].attempts == 0 && (events[i].eventType, events[i].aggregateId) in inputs
        invariant forall i :: 0 <= i < n ==> HasKey(inputs[i].0, inputs[i].1)
        invariant forall i, j :: |old(events)| <= j < |events| && 0 <= i < j ==>
          !SameDedupeKey(events[i], events[j].eventType, events[j].aggregateId)
      {
        var (eventType, aggregateId) := inputs[n];
        ghost var before := events;
        if !HasKey(eventType, aggregateId) {
          SoloCreate(clock, events, queue, finished, eventType, aggregateId);
          events := events + [Event(eventType, aggregateId, Pending, 0, clock, clock, None)];
          count := count + 1;
          assert SameDedupeKey(events[|before|], eventType, aggregateId);
        }
        assert before <= events;
        assert forall i :: 0 <= i < |before| ==> events[i] == before[i];
      }
    }

    predicate HasKey(eventType: EventType, aggregateId: nat)
      reads this
    {
      exists i :: 0 <= i < |events| && SameDedupeKey(events[i], eventType, aggregateId)
    }

    /** The candidate query: due rows only, earliest due first, no more than `limit`. */
    method FindCandidates(tick: nat, limit: nat) returns (ids: seq<nat>)
      ensures InDueOrder(events, ids) && |ids| <= limit
      ensures forall i :: 0 <= i < |ids| ==> IsCandidate(events[ids[i]], tick)
      ensures forall i :: 0 <= i < |ids| ==>
        var e := events[ids[i]];
        if e.status.Processing? then e.updatedAt + 120_000 <= tick else e.nextAttemptAt <= tick && !e.status.Terminal()
      ensures forall id: nat :: id < |events| && IsCandidate(events[id], tick) && id !in ids ==>
        |ids| == limit && forall i :: 0 <= i < |ids| ==> EarlierDue(events, ids[i], id)
    {
      var due: seq<nat> := [];
      for id := 0 to |events|
        invariant InDueOrder(events, due)
        invariant forall i :: 0 <= i < |due| ==> due[i] < id && IsCandidate(events[due[i]], tick)
        invariant forall i: nat :: i < id && IsCandidate(events[i], tick) ==> i in due
      {
        if IsCandidate(events[id], tick) {
          ghost var before := due;
          var at;
          due, at := InsertDue(due, id);
          assert before == before[..at] + before[at..];
        }
      }
      if |due| <= limit {
        ids := due;
      } else {
        ids := due[..limit];
        forall id: nat | id < |events| && IsCandidate(events[id], tick) && id !in ids
          ensures forall i :: 0 <= i < |ids| ==> EarlierDue(events, ids[i], id)
        {
          var at :| 0 <= at < |due| && due[at] == id;
          assert at >= limit;
        }
      }
    }

    /** Places a later row behind every row due no later than itself. */
    method InsertDue(due: seq<nat>, id: nat) returns (r: seq<nat>, at: nat)
      requires InDueOrder(events, due) && id < |events|
      requires forall i :: 0 <= i < |due| ==> due[i] < id
      ensures at <= |due| && r == due[..at] + [id] + due[at..]
      ensures InDueOrder(events, r)
    {
      at := |due|;
      while at > 0 && events[id].nextAttemptAt < events[due[at - 1]].nextAttemptAt
        invariant 0 <= at <= |due|
        invariant at < |due| ==> EarlierDue(events, id, due[at])
      {
        at := at - 1;
      }
      r := due[..at] + [id] + due[at..];
      InsertionKeepsOrder(events, due, id, at);
    }

    /** One pass over the due rows; an error of one row does not keep the pass from the others. */
    method ProcessPendingEvents(limit: nat, queryThrows: bool, faults: nat -> Faults) returns (processed: Option<nat>, ghost chosen: seq<nat>)
      requires Valid()
      modifies this`events, this`queue
      ensures Valid() && |chosen| <= limit && InDueOrder(old(events), chosen)
      ensures queryThrows <==> processed.None?
      ensures queryThrows ==> chosen == []
      ensures forall i :: 0 <= i < |chosen| ==> IsCandidate(old(events)[chosen[i]], clock)
      ensures !queryThrows ==>
        && processed.value == DispatchCount(chosen, faults)
        && forall id: nat :: id < |old(events)| && IsCandidate(old(events)[id], clock) && id !in chosen ==>
             |chosen| == limit && forall i :: 0 <= i < |chosen| ==> EarlierDue(old(events), chosen[i], id)
      ensures queue == old(queue) + JobsAdded(old(events), chosen, faults)
      ensures AfterTick(old(events), events, chosen, clock, faults)
      ensures forall id: nat :: id < |events| && old(events)[id].status.Processing? && clock < old(events)[id].updatedAt + 120_000 ==>
        id !in chosen && events[id] == old(events)[id]
    {
      var tick := clock;
      if queryThrows {
        return None, [];
      }
      var ids := FindCandidates(tick, limit);
      chosen := ids;
      var count := ProcessCandidates(ids, tick, faults);
      processed := Some(count);
    }

    /** The loop over the candidates just read. */
    method ProcessCandidates(ids: seq<nat>, tick: nat, faults: nat -> Faults) returns (processed: nat)
      requires Valid() && tick == clock && InDueOrder(events, ids)
      requires forall i :: 0 <= i < |ids| ==> IsCandidate(events[ids[i]], tick)
      modifies this`events, this`queue
      ensures Valid() && processed == DispatchCount(ids, faults)
      ensures queue == old(queue) + JobsAdded(old(events), ids, faults)
      ensures AfterTick(old(events), events, ids, tick, faults)
    {
      var table := events;
      var candidates := Read(events, ids);
      SoloBegin(clock, events, queue, finished, ids, candidates);
      assert candidates[0..] == candidates;
      processed := 0;
      for n := 0 to |candidates|
        invariant Reachable(View(Looping(tick, candidates[n..]), Free), true)
        invariant AfterTick(table, events, ids[..n], tick, faults)
        invariant queue == old(queue) + JobsAdded(table, ids[..n], faults) && processed == DispatchCount(ids[..n], faults)
      {
        assert candidates[n..] == [candidates[n]] + candidates[n + 1..];
        processed := ProcessNext(table, old(queue), ids, n, candidates[n], processed, tick, faults, candidates[n + 1..]);
      }
      assert candidates[|candidates|..] == [] && ids[..|ids|] == ids;
      SoloEnd(clock, events, queue, finished, tick);
    }

    /** One iteration: an error of this row is caught and logged. */
    method ProcessNext(ghost table: seq<Event>, ghost before: seq<Job>, ids: seq<nat>, n: nat, event: Snapshot, count: nat,
                       tick: nat, faults: nat -> Faults, ghost rest: seq<Snapshot>) returns (processed: nat)
      requires InDueOrder(table, ids) && n < |ids| && IsCandidate(table[ids[n]], tick) && tick == clock
      requires event == Snapshot(ids[n], table[ids[n]].status, table[ids[n]].attempts)
      requires Reachable(View(Looping(tick, [event] + rest), Free), true)
      requires AfterTick(table, events, ids[..n], tick, faults)
      requires queue == before + JobsAdded(table, ids[..n], faults) && count == DispatchCount(ids[..n], faults)
      modifies this`events, this`queue
      ensures Reachable(View(Looping(tick, rest), Free), true)
      ensures AfterTick(table, events, ids[..n + 1], tick, faults)
      ensures queue == before + JobsAdded(table, ids[..n + 1], faults) && processed == DispatchCount(ids[..n + 1], faults)
    {
      NotYetProcessed(table, events, ids, n, tick, faults);
      var one := ProcessEvent(event, tick, faults(ids[n]), rest);
      OneMoreProcessed(before, table, old(events), events, ids, n, tick, faults);
      processed := count + (if one.Some? then one.value else 0);
    }

    /** Claim, enqueue, and write back the outcome for one candidate read earlier; `None` when it throws. */
    method ProcessEvent(event: Snapshot, tick: nat, faults: Faults, ghost rest: seq<Snapshot>) returns (processed: Option<nat>)
      requires event.id < |events| && tick == clock
      requires Reachable(View(Looping(tick, [event] + rest), Free), true)
      modifies this`events, this`queue
      ensures Reachable(View(Looping(tick, rest), Free), true)
      ensures var matches := ClaimMatches(event.status, old(events)[event.id], tick);
        && processed == (if faults.claim || (matches && !faults.Dispatches() && faults.failure) then None
                         else Some(if matches && faults.Dispatches() then 1 else 0))
        && queue == old(queue) + (if matches && faults.Queues() then [Job(event.id, event.attempts + 1)] else [])
      ensures events == old(events)[event.id := ProcessedRow(old(events)[event.id], event, tick, clock, faults)]
    {
      SoloProcess(clock, events, queue, finished, event, rest, faults);
      if faults.claim {
        return None;
      }
      if !ClaimMatches(event.status, events[event.id], tick) {
        return Some(0);
      }
      var row := events[event.id];
      events := events[event.id := row.(status := Processing, attempts := row.attempts + 1, updatedAt := clock)];
      var currentAttempt := event.attempts + 1;
      if !faults.enqueue {
        queue := queue + [Job(event.id, currentAttempt)];
      }
      if faults.Dispatches() {
        MarkDispatched(event.id, tick);
        processed := Some(1);
      } else if faults.failure {
        processed := None;
      } else {
        WriteFailure(event.id, currentAttempt, false);
        processed := Some(0);
      }
    }

    method MarkDispatched(id: nat, tick: nat)
      requires id < |events|
      modifies this`events
      ensures events == old(events)[id := DispatchRow(old(events)[id], tick, clock)]
    {
      var e := events[id];
      if e.status.Processing? {
        events := events[id := e.(status := Dispatched,
          nextAttemptAt := tick + DISPATCH_STALE_AFTER_MS, processedAt := None, updatedAt := clock)];
      }
    }

    /** The row of a job whose data still describe it, if the job's attempt is the row's own and the row is in flight. */
    method ResolveExecutableEvent(data: JobData) returns (event: Option<Event>)
      ensures event.Some? <==> data.Describes(events) && Executable(View(Idle, Free), data.job)
      ensures event.Some? ==> event.value == events[data.job.id]
    {
      if data.job.id >= |events| {
        return None;
      }
      var row := events[data.job.id];
      if row.eventType != data.eventType || row.aggregateId != data.aggregateId || row.attempts != data.job.attempt
         || (!row.status.Dispatched? && !row.status.Processing?) {
        return None;
      }
      event := Some(row);
    }

    /** The guarded failure statement. */
    method WriteFailure(id: nat, attempt: nat, terminal: bool)
      requires id < |events|
      modifies this`events
      ensures events == old(events)[id := FailRow(old(events)[id], attempt, terminal, clock)]
    {
      var e := events[id];
      if e.attempts == attempt && e.status.InFlight() {
        var dead := terminal || attempt >= MAX_ATTEMPTS;
        events := events[id := e.(
          status := if dead then DeadLetter else Failed,
          nextAttemptAt := clock + BackoffMs(attempt),
          processedAt := if dead then Some(clock) else None,
          updatedAt := clock)];
      }
    }

    /**
      `markCompleted` after a job's effect has run: the row is completed for good exactly when the job
      is still its current attempt in flight, and otherwise nothing at all is written.
     */
    method MarkCompleted(job: Job)
      requires Reachable(View(Idle, EffectDone(job)), true) && job.id < |events|
      modifies this`events
      ensures Valid() && events == old(events)[job.id := CompleteRow(old(events)[job.id], job.attempt, clock)]
      ensures old(events)[job.id].attempts == job.attempt && old(events)[job.id].status.InFlight() ==>
        && events[job.id].status.Completed? && events[job.id].processedAt == Some(clock)
        && events[job.id].attempts == job.attempt && !IsCandidate(events[job.id], clock)
      ensures old(events)[job.id].attempts != job.attempt || !old(events)[job.id].status.InFlight() ==> events == old(events)
    {
      Follow(View(Idle, EffectDone(job)), DomainOutbox.MarkCompleted(0),
             Solo(clock, events[job.id := CompleteRow(events[job.id], job.attempt, clock)], queue, finished, Idle, Free));
      var e := events[job.id];
      if e.attempts == job.attempt && e.status.InFlight() {
        events := events[job.id := e.(status := Completed, processedAt := Some(clock), updatedAt := clock)];
      }
      assert old(events)[job.id := old(events)[job.id]] == old(events);
    }

    /**
      `markFailed` after a job's effect threw: when the job is still the row's current attempt in
      flight, the row waits out its backoff, or is dead for good when the failure is terminal or was
      the eighth; otherwise nothing is written.
     */
    method MarkFailed(job: Job, terminal: bool)
      requires Reachable(View(Idle, EffectFailed(job, terminal)), true) && job.id < |events|
      modifies this`events
      ensures Valid() && events == old(events)[job.id := FailRow(old(events)[job.id], job.attempt, terminal, clock)]
      ensures old(events)[job.id].attempts == job.attempt && old(events)[job.id].status.InFlight() ==>
        && (events[job.id].status.DeadLetter? <==> terminal || job.attempt >= 8)
        && (events[job.id].status.Failed? <==> !terminal && job.attempt < 8)
        && events[job.id].attempts == job.attempt
        && (events[job.id].status.Failed? ==>
              forall tick: nat :: IsCandidate(events[job.id], tick) <==> clock + BackoffMs(job.attempt) <= tick)
      ensures old(events)[job.id].attempts != job.attempt || !old(events)[job.id].status.InFlight() ==> events == old(events)
    {
      Follow(View(Idle, EffectFailed(job, terminal)), DomainOutbox.MarkFailed(0),
             Solo(clock, events[job.id := FailRow(events[job.id], job.attempt, terminal, clock)], queue, finished, Idle, Free));
      WriteFailure(job.id, job.attempt, terminal);
      assert old(events)[job.id := old(events)[job.id]] == old(events);
    }

    /** A failed effect's write; `threw` when the write itself throws and leaves the row alone. */
    method Settle(job: Job, terminal: bool, settleThrows: bool) returns (threw: bool)
      requires Reachable(View(Idle, Running(job)), true) && job.id < |events|
      modifies this`events
      ensures Valid() && threw == settleThrows
      ensures events == old(events)[job.id :=
        if settleThrows then old(events)[job.id] else FailRow(old(events)[job.id], job.attempt, terminal, clock)]
    {
      threw := settleThrows;
      Follow(View(Idle, Running(job)), EffectThrows(0, terminal), View(Idle, EffectFailed(job, terminal)));
      if settleThrows {
        Follow(View(Idle, EffectFailed(job, terminal)), CrashWorker(0), View(Idle, Free));
        assert events[job.id := events[job.id]] == events;
      } else {
        MarkFailed(job, terminal);
      }
    }
  }

  /** What a job carries besides its id. */
  datatype JobData = JobData(job: Job, eventType: EventType, aggregateId: nat)
  {
    predicate Describes(events: seq<Event>)
    {
      job.id < |events| && events[job.id].eventType == eventType && events[job.id].aggregateId == aggregateId
    }
  }

  lemma InsertionKeepsOrder(events: seq<Event>, due: seq<nat>, id: nat, at: nat)
    requires InDueOrder(events, due) && id < |events| && at <= |due|
    requires forall i :: 0 <= i < |due| ==> due[i] < id
    requires at > 0 ==> events[due[at - 1]].nextAttemptAt <= events[id].nextAttemptAt
    requires at < |due| ==> EarlierDue(events, id, due[at])
    ensures InDueOrder(events, due[..at] + [id] + due[at..])
  {
    forall i | 0 <= i < at ensures EarlierDue(events, due[i], id) {
      if i < at - 1 { assert EarlierDue(events, due[i], due[at - 1]); }
    }
    forall i | at <= i < |due| ensures EarlierDue(events, id, due[i]) {
      if at < i { assert EarlierDue(events, due[at], due[i]); }
    }
  }

  /** The cron job; `isProcessing` keeps a firing from overlapping one still under way. */
  class DomainOutboxScheduler {
    var isProcessing: bool
    const service: DomainOutboxService

    constructor (service: DomainOutboxService)
      ensures !isProcessing && this.service == service
    {
      isProcessing := false;
      this.service := service;
    }

    /**
      One firing: the first twenty-five due rows are taken up and every other row is left. A query that
      throws is caught and logged; the guard is cleared either way.
     */
    method ProcessDomainOutbox(queryThrows: bool, faults: nat -> Faults) returns (ghost chosen: seq<nat>)
      requires service.Valid()
      modifies this`isProcessing, service`events, service`queue
      ensures service.Valid() && isProcessing == old(isProcessing)
      ensures old(isProcessing) || queryThrows ==>
        chosen == [] && service.events == old(service.events) && service.queue == old(service.queue)
      ensures |chosen| <= 25 && InDueOrder(old(service.events), chosen)
      ensures forall i :: 0 <= i < |chosen| ==> IsCandidate(old(service.events)[chosen[i]], service.clock)
      ensures !old(isProcessing) && !queryThrows ==>
        forall id: nat :: id < |old(service.events)| && IsCandidate(old(service.events)[id], service.clock) && id !in chosen ==>
          |chosen| == 25 && forall i :: 0 <= i < |chosen| ==> EarlierDue(old(service.events), chosen[i], id)
      ensures service.queue == old(service.queue) + JobsAdded(old(service.events), chosen, faults)
      ensures AfterTick(old(service.events), service.events, chosen, service.clock, faults)
    {
      chosen := [];
      if isProcessing {
        return;
      }
      isProcessing := true;
      var processed;
      processed, chosen := service.ProcessPendingEvents(25, queryThrows, faults);
      // finally
      isProcessing := false;
    }
  }

  /** How the referral or payout service answers. */
  datatype EffectOutcome = Succeeds | BookingGone | Throws

  class DomainOutboxProcessor {
    const service: DomainOutboxService

    constructor (service: DomainOutboxService)
      ensures this.service == service
    {
      this.service := service;
    }

    /**
      Runs a job's effect, then settles the row; `settleThrows` says whether the settling write throws.
      `rethrown` asks the queue to retry the job, whose effect may then run again.
     */
    method Process(data: JobData, outcome: EffectOutcome, finalTry: bool, settleThrows: bool) returns (rethrown: bool)
      requires service.Valid() && data.job in service.queue
      modifies service`events, service`finished
      ensures service.Valid()
      ensures var executable := data.Describes(old(service.events)) && Executable(old(service.View(Idle, Free)), data.job);
        && (!executable ==> service.events == old(service.events) && service.finished == old(service.finished) && !rethrown)
        && (executable ==>
              && (rethrown <==> outcome.Throws? || settleThrows)
              && service.events == old(service.events)[data.job.id :=
                   SettledRow(old(service.events)[data.job.id], data.job.attempt, outcome, finalTry, settleThrows, service.clock)])
    {
      rethrown := false;
      var event := service.ResolveExecutableEvent(data);
      if event.None? {
        return;
      }
      var job := data.job;
      assert service.events[job.id := service.events[job.id]] == service.events;
      Follow(service.View(Idle, Free), Resolve(0, job), service.View(Idle, Running(job)));
      match outcome
      case Succeeds =>
        Follow(service.View(Idle, Running(job)), EffectSucceeds(0), service.View(Idle, EffectDone(job)).(finished := service.finished + {job}));
        service.finished := service.finished + {job};
        if settleThrows {
          Follow(service.View(Idle, EffectDone(job)), CrashWorker(0), service.View(Idle, Free));
          rethrown := true;
        } else {
          service.MarkCompleted(job);
        }
      case BookingGone =>
        rethrown := service.Settle(job, true, settleThrows);
      case Throws =>
        rethrown := true;
        if finalTry {
          // An error of this write is caught and logged.
          var caught := service.Settle(job, false, settleThrows);
        } else {
          Follow(service.View(Idle, Running(job)), EffectWillRetry(0), service.View(Idle, Free));
        }
    }
  }

  function SettledRow(e: Event, attempt: nat, outcome: EffectOutcome, finalTry: bool, settleThrows: bool, now: nat): Event
  {
    if settleThrows then e
    else
      match outcome
      case Succeeds => CompleteRow(e, attempt, now)
      case BookingGone => FailRow(e, attempt, true, now)
      case Throws => if finalTry then FailRow(e, attempt, false, now) else e
  }

  /** A job that ran settles its row for good, schedules a retry, or leaves it for the queue's next try. */
  lemma SettlingEndsTheAttempt(e: Event, attempt: nat, outcome: EffectOutcome, finalTry: bool, settleThrows: bool, now: nat)
    requires Fenced(e, attempt)
    ensures var settled := SettledRow(e, attempt, outcome, finalTry, settleThrows, now);
      && (settled.status.Completed? <==> outcome.Succeeds? && !settleThrows)
      && (settled == e <==> settleThrows || (outcome.Throws? && !finalTry))
      && (settled.status.DeadLetter? <==> !settleThrows && (outcome.BookingGone? || (outcome.Throws? && finalTry && attempt >= MAX_ATTEMPTS)))
      && settled.attempts == attempt
  {}
}
