/**
  The code that drives the notification outbox: `writeEvent`, one pass over the due rows, and the
  cron job that drains the table in several passes. `Valid()` says the table is in a state that
  runs with one scheduler at a time lead to, and every method keeps it, whatever throws.
 */
module NotificationOutboxRuntime {
  import opened Foundations
  import opened NotificationOutbox
  import DomainOutbox

  type Faults = DomainOutbox.Faults

  /** The attempt comes to an end in its row: scrubbed or dispatched. */
  predicate Settles(faults: Faults, payloadOk: bool) { !faults.claim && !faults.write && !(payloadOk && faults.enqueue) }

  predicate Dispatches(faults: Faults, payloadOk: bool) { payloadOk && faults.Dispatches() }

  predicate Queues(faults: Faults, payloadOk: bool) { payloadOk && faults.Queues() }

  /** What one undisturbed pass leaves in a row it took up. */
  function ProcessedRow(e: Event, now: nat, faults: Faults): Event
  {
    var claimed := ClaimRow(e.status, e, now);
    if faults.claim then e
    else if Settles(faults, e.payloadOk) then if e.payloadOk then DispatchRow(claimed, now) else ScrubRow(claimed, now)
    else if faults.failure then claimed
    else FailRow(claimed, claimed.attempts, now)
  }

  function RowAfterPass(events: seq<Event>, id: nat, chosen: seq<nat>, now: nat, faults: nat -> Faults): Event
    requires id < |events|
  {
    if id in chosen then ProcessedRow(events[id], now, faults(id)) else events[id]
  }

  /** The table after a pass has dealt with the rows in `done`. */
  ghost predicate AfterPass(table: seq<Event>, events: seq<Event>, done: seq<nat>, now: nat, faults: nat -> Faults)
  {
    |events| == |table| && forall id: nat :: id < |events| ==> events[id] == RowAfterPass(table, id, done, now, faults)
  }

  /** How many of the chosen rows a pass dispatches. */
  function DispatchCount(events: seq<Event>, chosen: seq<nat>, faults: nat -> Faults): nat
    requires forall i :: 0 <= i < |chosen| ==> chosen[i] < |events|
  {
    if chosen == [] then 0
    else
      var last := chosen[|chosen| - 1];
      DispatchCount(events, chosen[..|chosen| - 1], faults) + (if Dispatches(faults(last), events[last].payloadOk) then 1 else 0)
  }

  /** Candidates in the order of their creation. */
  ghost predicate InOrder(events: seq<Event>, ids: seq<nat>, tick: nat)
  {
    && (forall i :: 0 <= i < |ids| ==> ids[i] < |events| && IsCandidate(events[ids[i]], tick))
    && (forall i, j :: 0 <= i < j < |ids| ==> ids[i] < ids[j])
  }

  // ----- one process alone, as runs of the state machine

  /** The table, the queue and a single scheduler. */
  function Solo(now: nat, events: seq<Event>, queue: set<nat>, accepted: seq<Job>, p: SchedulerState): State
  {
    State(now, events, queue, accepted, map[0 := p])
  }

  lemma Follow(s: State, step: Step, t: State)
    requires Reachable(s, Alone) && Enabled(s, step) && Keeps(s, step, Alone) && Do(s, step) == t
    ensures Reachable(t, Alone)
  {
    var u := Take(s, step, Alone);
  }

  /** The state with its scheduler elsewhere. */
  function At(s: State, p: SchedulerState): State { s.(schedulers := map[0 := p]) }

  ghost predicate SoloReachable(s: State) { s.schedulers.Keys == {0} && Reachable(s, Alone) }

  lemma SoloBegin(s: State, ids: seq<nat>)
    requires SoloReachable(At(s, Idle)) && InOrder(s.events, ids, s.now)
    ensures SoloReachable(At(s, Ticking(s.now, Snaps(s, ids), map[])))
  {
    var started := At(s, Started(s.now));
    Follow(At(s, Idle), StartTick(0), started);
    assert Snaps(started, ids) == Snaps(s, ids);
    Follow(started, ReadCandidates(0, ids), At(s, Ticking(s.now, Snaps(s, ids), map[])));
  }

  /** The flight of a row in its tick. */
  function Flown(s: State, event: Snapshot, rest: seq<Snapshot>, phase: Phase): State
  {
    At(s, Ticking(s.now, rest, map[event.id := Flight(event, s.now, phase)]))
  }

  lemma SoloClaim(s: State, event: Snapshot, rest: seq<Snapshot>)
    requires event.id < |s.events| && ClaimMatches(event.status, s.events[event.id], s.now)
    requires SoloReachable(At(s, Ticking(s.now, [event] + rest, map[])))
    ensures SoloReachable(Flown(s.(events := s.events[event.id := ClaimRow(event.status, s.events[event.id], s.now)]), event, rest, Claimed))
  {
    assert ([event] + rest)[1..] == rest;
    Follow(At(s, Ticking(s.now, [event] + rest, map[])), Claim(0),
           Flown(s.(events := s.events[event.id := ClaimRow(event.status, s.events[event.id], s.now)]), event, rest, Claimed));
  }

  lemma SoloClaimThrows(s: State, event: Snapshot, rest: seq<Snapshot>)
    requires SoloReachable(At(s, Ticking(s.now, [event] + rest, map[])))
    ensures SoloReachable(At(s, Ticking(s.now, rest, map[])))
  {
    assert ([event] + rest)[1..] == rest;
    Follow(At(s, Ticking(s.now, [event] + rest, map[])), ClaimThrows(0), At(s, Ticking(s.now, rest, map[])));
  }

  /** The flight lands and leaves the row as `e`. */
  lemma SoloLand(s: State, event: Snapshot, rest: seq<Snapshot>, phase: Phase, step: Step, e: Event)
    requires event.id < |s.events| && SoloReachable(Flown(s, event, rest, phase))
    requires match step
      case Scrub(k, id) => k == 0 && id == event.id && phase.Claimed? && !s.events[id].payloadOk && e == ScrubRow(s.events[id], s.now)
      case MarkDispatched(k, id) => k == 0 && id == event.id && phase.Enqueued? && e == DispatchRow(s.events[id], s.now)
      case MarkFailed(k, id) => k == 0 && id == event.id && phase.Threw? && e == FailRow(s.events[id], event.CurrentAttempt(), s.now)
      case Abandon(k, id) => k == 0 && id == event.id && phase.Threw? && e == s.events[id]
      case _ => false
    ensures SoloReachable(At(s.(events := s.events[event.id := e]), Ticking(s.now, rest, map[])))
  {
    assert map[event.id := Flight(event, s.now, phase)] - {event.id} == map[];
    Follow(Flown(s, event, rest, phase), step, At(s.(events := s.events[event.id := e]), Ticking(s.now, rest, map[])));
  }

  lemma SoloThrows(s: State, event: Snapshot, rest: seq<Snapshot>, phase: Phase, step: Step)
    requires event.id < |s.events| && SoloReachable(Flown(s, event, rest, phase))
    requires match step
      case ScrubThrows(k, id) => k == 0 && id == event.id && phase.Claimed? && !s.events[id].payloadOk
      case EnqueueThrows(k, id) => k == 0 && id == event.id && phase.Claimed? && s.events[id].payloadOk
      case MarkDispatchedThrows(k, id) => k == 0 && id == event.id && phase.Enqueued?
      case _ => false
    ensures SoloReachable(Flown(s, event, rest, Threw))
  {
    assert map[event.id := Flight(event, s.now, phase)][event.id := Flight(event, s.now, Threw)] == map[event.id := Flight(event, s.now, Threw)];
    Follow(Flown(s, event, rest, phase), step, Flown(s, event, rest, Threw));
  }

  lemma SoloEnqueue(s: State, event: Snapshot, rest: seq<Snapshot>)
    requires event.id < |s.events| && s.events[event.id].payloadOk && SoloReachable(Flown(s, event, rest, Claimed))
    ensures SoloReachable(Flown(Queued(s, event.id), event, rest, Enqueued))
  {
    assert map[event.id := Flight(event, s.now, Claimed)][event.id := Flight(event, s.now, Enqueued)] == map[event.id := Flight(event, s.now, Enqueued)];
    Follow(Flown(s, event, rest, Claimed), Enqueue(0, event.id), Flown(Queued(s, event.id), event, rest, Enqueued));
  }

  /** After a throw: the failure write, unless that throws too and leaves the claimed row to the next reclaim. */
  lemma SoloFailed(s: State, event: Snapshot, rest: seq<Snapshot>, failure: bool)
    requires event.id < |s.events| && SoloReachable(Flown(s, event, rest, Threw))
    ensures SoloReachable(At(s.(events := s.events[event.id :=
      if failure then s.events[event.id] else FailRow(s.events[event.id], event.CurrentAttempt(), s.now)]), Ticking(s.now, rest, map[])))
  {
    var e := s.events[event.id];
    if failure {
      SoloLand(s, event, rest, Threw, Abandon(0, event.id), e);
    } else {
      SoloLand(s, event, rest, Threw, MarkFailed(0, event.id), FailRow(e, event.CurrentAttempt(), s.now));
    }
  }

  /** From the claim to the end of the attempt. */
  lemma SoloAttempt(s: State, event: Snapshot, rest: seq<Snapshot>, faults: Faults)
    requires event.id < |s.events| && SoloReachable(Flown(s, event, rest, Claimed))
    ensures var e := s.events[event.id];
      var f := if !(e.payloadOk && faults.enqueue) && !faults.write then if e.payloadOk then DispatchRow(e, s.now) else ScrubRow(e, s.now)
               else if faults.failure then e else FailRow(e, event.CurrentAttempt(), s.now);
      SoloReachable(At((if e.payloadOk && !faults.enqueue then Queued(s, event.id) else s).(events := s.events[event.id := f]),
                       Ticking(s.now, rest, map[])))
  {
    var e := s.events[event.id];
    if !e.payloadOk {
      if faults.write {
        SoloThrows(s, event, rest, Claimed, ScrubThrows(0, event.id));
        SoloFailed(s, event, rest, faults.failure);
      } else {
        SoloLand(s, event, rest, Claimed, Scrub(0, event.id), ScrubRow(e, s.now));
      }
    } else if faults.enqueue {
      SoloThrows(s, event, rest, Claimed, EnqueueThrows(0, event.id));
      SoloFailed(s, event, rest, faults.failure);
    } else {
      var t := Queued(s, event.id);
      SoloEnqueue(s, event, rest);
      if faults.write {
        SoloThrows(t, event, rest, Enqueued, MarkDispatchedThrows(0, event.id));
        SoloFailed(t, event, rest, faults.failure);
      } else {
        SoloLand(t, event, rest, Enqueued, MarkDispatched(0, event.id), DispatchRow(e, s.now));
      }
    }
  }

  /** The whole of `processEvent`, undisturbed, leads from one reachable state to another. */
  lemma SoloProcess(s: State, event: Snapshot, rest: seq<Snapshot>, faults: Faults)
    requires event.id < |s.events| && ClaimMatches(event.status, s.events[event.id], s.now) && event == Snap(s, event.id)
    requires SoloReachable(At(s, Ticking(s.now, [event] + rest, map[])))
    ensures var e := s.events[event.id];
      SoloReachable(At((if Queues(faults, e.payloadOk) then Queued(s, event.id) else s).(
        events := s.events[event.id := ProcessedRow(e, s.now, faults)]), Ticking(s.now, rest, map[])))
  {
    var e := s.events[event.id];
    if faults.claim {
      SoloClaimThrows(s, event, rest);
      assert s.events[event.id := e] == s.events;
    } else {
      SoloClaim(s, event, rest);
      var claimed := s.(events := s.events[event.id := ClaimRow(event.status, e, s.now)]);
      SoloAttempt(claimed, event, rest, faults);
      assert claimed.events[event.id := ProcessedRow(e, s.now, faults)] == s.events[event.id := ProcessedRow(e, s.now, faults)];
    }
  }

  /** One more row of the pass is done. */
  lemma OneMoreProcessed(table: seq<Event>, before: seq<Event>, after: seq<Event>, ids: seq<nat>, n: nat, tick: nat, faults: nat -> Faults)
    requires InOrder(table, ids, tick) && n < |ids| && AfterPass(table, before, ids[..n], tick, faults)
    requires after == before[ids[n] := ProcessedRow(before[ids[n]], tick, faults(ids[n]))]
    ensures AfterPass(table, after, ids[..n + 1], tick, faults)
    ensures DispatchCount(table, ids[..n + 1], faults)
         == DispatchCount(table, ids[..n], faults) + (if Dispatches(faults(ids[n]), table[ids[n]].payloadOk) then 1 else 0)
  {
    assert ids[n] !in ids[..n];
    assert ids[..n + 1] == ids[..n] + [ids[n]] && ids[..n + 1][..n] == ids[..n];
  }

  /** A row not yet dealt with is as it was read. */
  lemma NotYetProcessed(table: seq<Event>, events: seq<Event>, ids: seq<nat>, n: nat, tick: nat, faults: nat -> Faults)
    requires InOrder(table, ids, tick) && n < |ids| && AfterPass(table, events, ids[..n], tick, faults)
    ensures ids[n] < |events| && events[ids[n]] == table[ids[n]]
  {
    assert ids[n] !in ids[..n];
  }

  class NotificationOutboxService {
    var clock: nat
    var events: seq<Event>
    var queue: set<nat>
    ghost var accepted: seq<Job>
    var inbox: seq<nat>

    ghost function View(p: SchedulerState): State
      reads this
    {
      Solo(clock, events, queue, accepted, p)
    }

    ghost predicate Valid()
      reads this
    {
      Reachable(View(Idle), Alone)
    }

    constructor ()
      ensures Valid() && events == [] && queue == {} && inbox == []
    {
      clock, events, queue, accepted, inbox := 0, [], {}, [], [];
      new;
      ghost var s := State(0, [], {}, [], map[]);
      assert ValidRun(s, [], Alone) && After(s, []) == s;
      Follow(s, Crash(0), View(Idle));
    }

    /** One inbox row and one outbox row at most per dedupe key, however often the handler runs. */
    method WriteEvent(dedupeKey: nat, hasInbox: bool, hasJob: bool, payloadOk: bool)
      requires Valid()
      modifies this`events, this`inbox
      ensures Valid()
      ensures inbox == if hasInbox && dedupeKey !in old(inbox) then old(inbox) + [dedupeKey] else old(inbox)
      ensures events == old(events) || events == old(events) + [Event(dedupeKey, payloadOk, Pending, 0, clock, clock)]
      ensures hasJob ==> exists i :: 0 <= i < |events| && events[i].dedupeKey == dedupeKey
      ensures !hasJob || (exists i :: 0 <= i < |old(events)| && old(events)[i].dedupeKey == dedupeKey) ==> events == old(events)
    {
      if hasInbox && dedupeKey !in inbox {
        inbox := inbox + [dedupeKey];
      }
      if hasJob && !(exists i :: 0 <= i < |events| && events[i].dedupeKey == dedupeKey) {
        Follow(View(Idle), Step.WriteEvent(dedupeKey, payloadOk),
               View(Idle).(events := events + [Event(dedupeKey, payloadOk, Pending, 0, clock, clock)]));
        events := events + [Event(dedupeKey, payloadOk, Pending, 0, clock, clock)];
        assert events[|events| - 1].dedupeKey == dedupeKey;
      }
    }

    /** The candidate query: due rows in creation order, no more than `limit`. */
    method FindCandidates(tick: nat, limit: nat) returns (ids: seq<nat>)
      ensures |ids| <= limit && InOrder(events, ids, tick)
      ensures forall id: nat :: id < |events| && IsCandidate(events[id], tick) && id !in ids ==>
        |ids| == limit && forall i :: 0 <= i < |ids| ==> ids[i] < id
    {
      ids := [];
      for id := 0 to |events|
        invariant |ids| <= limit && InOrder(events, ids, tick)
        invariant forall i :: 0 <= i < |ids| ==> ids[i] < id
        invariant forall i: nat :: i < id && IsCandidate(events[i], tick) && i !in ids ==>
          |ids| == limit && forall j :: 0 <= j < |ids| ==> ids[j] < i
      {
        if IsCandidate(events[id], tick) && |ids| < limit {
          ids := ids + [id];
        }
      }
    }

    /**
      One pass. `queryThrows` says whether the candidate query throws, and with it the pass; `faults`
      says for each row what throws there, which keeps the pass from no other row. Counts what it dispatched.
     */
    method ProcessPendingEvents(limit: nat, queryThrows: bool, faults: nat -> Faults) returns (processed: Option<nat>, ghost chosen: seq<nat>)
      requires Valid()
      modifies this`events, this`queue, this`accepted
      ensures Valid() && |chosen| <= limit && InOrder(old(events), chosen, clock)
      ensures processed.None? <==> queryThrows
      ensures queryThrows ==> chosen == [] && events == old(events) && queue == old(queue)
      ensures !queryThrows ==>
        && processed.value == DispatchCount(old(events), chosen, faults)
        && forall id: nat :: id < |old(events)| && IsCandidate(old(events)[id], clock) && id !in chosen ==>
             |chosen| == limit && forall i :: 0 <= i < |chosen| ==> chosen[i] < id
      ensures AfterPass(old(events), events, chosen, clock, faults)
      ensures old(accepted) <= accepted
    {
      if queryThrows {
        return None, [];
      }
      var tick := clock;
      var ids := FindCandidates(tick, limit);
      chosen := ids;
      var count := ProcessCandidates(ids, tick, faults);
      processed := Some(count);
    }

    /** The candidates just read, one after the other. */
    method ProcessCandidates(ids: seq<nat>, tick: nat, faults: nat -> Faults) returns (processed: nat)
      requires Valid() && tick == clock && InOrder(events, ids, tick)
      modifies this`events, this`queue, this`accepted
      ensures Valid() && processed == DispatchCount(old(events), ids, faults)
      ensures AfterPass(old(events), events, ids, tick, faults)
      ensures old(accepted) <= accepted
    {
      var table := events;
      var candidates := ReadCandidates(ids, tick);
      processed := 0;
      for n := 0 to |candidates|
        invariant SoloReachable(View(Ticking(tick, candidates[n..], map[])))
        invariant AfterPass(table, events, ids[..n], tick, faults) && processed == DispatchCount(table, ids[..n], faults)
        invariant old(accepted) <= accepted
      {
        assert candidates[n..] == [candidates[n]] + candidates[n + 1..];
        processed := ProcessNext(table, ids, n, candidates[n], processed, tick, faults, candidates[n + 1..]);
      }
      assert candidates[|candidates|..] == [] && ids[..|ids|] == ids;
      Follow(View(Ticking(tick, [], map[])), EndTick(0), View(Idle));
    }

    /** The rows as the query returns them. */
    method ReadCandidates(ids: seq<nat>, tick: nat) returns (candidates: seq<Snapshot>)
      requires Valid() && tick == clock && InOrder(events, ids, tick)
      ensures |candidates| == |ids| && candidates[0..] == candidates
      ensures forall i :: 0 <= i < |ids| ==> candidates[i] == Snapshot(ids[i], events[ids[i]].status, events[ids[i]].attempts)
      ensures SoloReachable(View(Ticking(tick, candidates, map[])))
    {
      candidates := Snaps(Solo(clock, events, queue, [], Idle), ids);
      SoloBegin(View(Idle), ids);
      assert candidates == Snaps(View(Idle), ids);
    }

    /** One settled promise of a pass; a rejected one counts nothing and is logged. */
    method ProcessNext(ghost table: seq<Event>, ids: seq<nat>, n: nat, event: Snapshot, count: nat, tick: nat,
                       faults: nat -> Faults, ghost rest: seq<Snapshot>) returns (processed: nat)
      requires InOrder(table, ids, tick) && n < |ids| && tick == clock
      requires event == Snapshot(ids[n], table[ids[n]].status, table[ids[n]].attempts)
      requires SoloReachable(View(Ticking(tick, [event] + rest, map[])))
      requires AfterPass(table, events, ids[..n], tick, faults) && count == DispatchCount(table, ids[..n], faults)
      modifies this`events, this`queue, this`accepted
      ensures SoloReachable(View(Ticking(tick, rest, map[])))
      ensures AfterPass(table, events, ids[..n + 1], tick, faults) && processed == DispatchCount(table, ids[..n + 1], faults)
      ensures old(accepted) <= accepted
    {
      NotYetProcessed(table, events, ids, n, tick, faults);
      var one := ProcessEvent(event, tick, faults(ids[n]), rest);
      OneMoreProcessed(table, old(events), events, ids, n, tick, faults);
      processed := count + (if one.Some? then one.value else 0);
    }

    /** Claim, parse, enqueue and write back for one row; `None` when it throws. */
    method ProcessEvent(event: Snapshot, tick: nat, faults: Faults, ghost rest: seq<Snapshot>) returns (processed: Option<nat>)
      requires event.id < |events| && tick == clock && IsCandidate(events[event.id], tick)
      requires event == Snapshot(event.id, events[event.id].status, events[event.id].attempts)
      requires SoloReachable(View(Ticking(tick, [event] + rest, map[])))
      modifies this`events, this`queue, this`accepted
      ensures SoloReachable(View(Ticking(tick, rest, map[])))
      ensures events == old(events)[event.id := ProcessedRow(old(events)[event.id], clock, faults)]
      ensures var payloadOk := old(events)[event.id].payloadOk;
        && processed == (if faults.claim || (!Settles(faults, payloadOk) && faults.failure) then None
                         else Some(if Dispatches(faults, payloadOk) then 1 else 0))
        && queue == old(queue) + (if Queues(faults, payloadOk) then {event.id} else {})
      ensures old(accepted) <= accepted
    {
      SoloProcess(View(Idle), event, rest, faults);
      if faults.claim {
        assert events[event.id := events[event.id]] == events;
        return None;
      }
      var row := events[event.id];
      var isStaleReclaim := event.status.Processing?;
      events := events[event.id := row.(status := Processing,
        attempts := if isStaleReclaim then row.attempts else row.attempts + 1, updatedAt := clock)];
      var currentAttempt := if isStaleReclaim then event.attempts else event.attempts + 1;
      row := events[event.id];
      if row.payloadOk && !faults.enqueue {
        accepted := if event.id in queue then accepted else accepted + [Job(event.id, clock)];
        queue := queue + {event.id};
      }
      if faults.write || (row.payloadOk && faults.enqueue) {
        if faults.failure {
          return None;
        }
        events := events[event.id := FailRow(row, currentAttempt, clock)];
        return Some(0);
      }
      if row.payloadOk {
        events := events[event.id := row.(status := Dispatched, updatedAt := clock)];
        processed := Some(1);
      } else {
        events := events[event.id := row.(status := DeadLetter, updatedAt := clock)];
        processed := Some(0);
      }
    }
  }

  /** What goes wrong in one pass. */
  datatype Pass = Pass(queryThrows: bool, faults: nat -> Faults)

  /** A pass over the first twenty-five due rows turned one table into the other and dispatched so many. */
  ghost predicate Passed(table: seq<Event>, after: seq<Event>, dispatched: nat, now: nat, faults: nat -> Faults)
  {
    exists chosen :: TakesFirstDue(table, chosen, now) && AfterPass(table, after, chosen, now, faults)
      && dispatched == DispatchCount(table, chosen, faults)
  }

  ghost predicate TakesFirstDue(table: seq<Event>, chosen: seq<nat>, now: nat)
  {
    && |chosen| <= 25 && InOrder(table, chosen, now)
    && forall id: nat :: id < |table| && IsCandidate(table[id], now) && id !in chosen ==>
         |chosen| == 25 && forall i :: 0 <= i < |chosen| ==> chosen[i] < id
  }

  /** `tables` are the table before, between and after passes that counted `counts`. */
  ghost predicate Drains(tables: seq<seq<Event>>, counts: seq<nat>, passes: seq<Pass>, now: nat)
  {
    && |tables| == |counts| + 1 && |counts| <= |passes|
    && forall i :: 0 <= i < |counts| ==> Passed(tables[i], tables[i + 1], counts[i], now, passes[i].faults)
  }

  /** No pass loses a row or touches a settled one. */
  lemma {:induction false} DrainsKeepTerminal(tables: seq<seq<Event>>, counts: seq<nat>, passes: seq<Pass>, now: nat)
    requires Drains(tables, counts, passes, now)
    ensures |tables[|counts|]| == |tables[0]|
    ensures forall id: nat :: id < |tables[0]| && tables[0][id].status.Terminal() ==> tables[|counts|][id] == tables[0][id]
  {
    if counts != [] {
      var n := |counts| - 1;
      assert Passed(tables[n], tables[n + 1], counts[n], now, passes[n].faults);
      forall i | 0 <= i < n ensures Passed(tables[..n + 1][i], tables[..n + 1][i + 1], counts[..n][i], now, passes[i].faults) {
        assert Passed(tables[i], tables[i + 1], counts[i], now, passes[i].faults);
      }
      DrainsKeepTerminal(tables[..n + 1], counts[..n], passes, now);
      var chosen :| TakesFirstDue(tables[n], chosen, now) && AfterPass(tables[n], tables[n + 1], chosen, now, passes[n].faults)
        && counts[n] == DispatchCount(tables[n], chosen, passes[n].faults);
    }
  }

  lemma OneMorePass(tables: seq<seq<Event>>, counts: seq<nat>, passes: seq<Pass>, now: nat, after: seq<Event>, count: nat, chosen: seq<nat>)
    requires Drains(tables, counts, passes, now) && |counts| < |passes|
    requires TakesFirstDue(tables[|counts|], chosen, now) && AfterPass(tables[|counts|], after, chosen, now, passes[|counts|].faults)
    requires count == DispatchCount(tables[|counts|], chosen, passes[|counts|].faults)
    ensures Drains(tables + [after], counts + [count], passes, now)
  {
    var all := tables + [after];
    assert Passed(tables[|counts|], after, count, now, passes[|counts|].faults);
    forall i | 0 <= i < |counts| ensures Passed(all[i], all[i + 1], (counts + [count])[i], now, passes[i].faults) {
      assert Passed(tables[i], tables[i + 1], counts[i], now, passes[i].faults);
    }
  }

  class NotificationOutboxScheduler {
    var isProcessing: bool
    const service: NotificationOutboxService
    const maxConsecutiveTicks: nat := 5

    constructor (service: NotificationOutboxService)
      ensures !isProcessing && this.service == service
    {
      isProcessing := false;
      this.service := service;
    }

    /**
      One firing drains in at most five passes, whose counts it returns: it stops after the first that
      dispatches nothing, or at one that throws. The guard is cleared however it ends. `tables` are the
      table before the first pass and after each.
     */
    method ProcessNotificationOutbox(passes: seq<Pass>) returns (counts: seq<nat>, threw: bool, ghost tables: seq<seq<Event>>)
      requires service.Valid() && |passes| == maxConsecutiveTicks
      modifies this`isProcessing, service`events, service`queue, service`accepted
      ensures service.Valid() && isProcessing == old(isProcessing)
      ensures old(isProcessing) ==> counts == [] && !threw && service.queue == old(service.queue)
      ensures |counts| <= 5 && forall i :: 0 <= i < |counts| - 1 ==> counts[i] > 0
      ensures forall i :: 0 <= i < |counts| ==> !passes[i].queryThrows
      ensures threw ==> |counts| < 5 && passes[|counts|].queryThrows && 0 !in counts
      ensures !old(isProcessing) && !threw ==> counts != [] && (counts[|counts| - 1] == 0 || |counts| == 5)
      ensures Drains(tables, counts, passes, service.clock)
      ensures tables[0] == old(service.events) && tables[|counts|] == service.events
      ensures |service.events| == |old(service.events)|
      ensures forall id: nat :: id < |service.events| && old(service.events)[id].status.Terminal() ==>
        service.events[id] == old(service.events)[id]
    {
      counts, threw, tables := [], false, [service.events];
      if isProcessing {
        return;
      }
      isProcessing := true;
      while |counts| < maxConsecutiveTicks
        invariant service.Valid() && |counts| <= maxConsecutiveTicks && 0 !in counts && !threw
        invariant forall i :: 0 <= i < |counts| ==> !passes[i].queryThrows
        invariant Drains(tables, counts, passes, service.clock)
        invariant tables[0] == old(service.events) && tables[|counts|] == service.events
      {
        ghost var chosen;
        var processed;
        processed, chosen := service.ProcessPendingEvents(25, passes[|counts|].queryThrows, passes[|counts|].faults);
        if processed.None? {
          // Caught and logged.
          threw := true;
          break;
        }
        OneMorePass(tables, counts, passes, service.clock, service.events, processed.value, chosen);
        counts, tables := counts + [processed.value], tables + [service.events];
        if processed.value == 0 {
          break;
        }
      }
      // finally
      isProcessing := false;
      DrainsKeepTerminal(tables, counts, passes, service.clock);
    }
  }
}
