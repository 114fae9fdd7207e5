/**
  The notification outbox. Unlike the domain outbox, a job id carries no attempt, a stale reclaim
  uses no attempt, and the final writes are not fenced at all. Any number of schedulers run, and any
  of them may crash at any point and leave rows in PROCESSING. The queue keeps a job for a day after
  it has finished, so for at least a day after it was added, and may then forget it.

  What a run has to meet for its unfenced writes to be harmless is a parameter of it, `Discipline`.
 */
module NotificationOutbox {
  import opened Foundations
  import DomainOutbox

  const MAX_ATTEMPTS: nat := 8
  const PROCESSING_STALE_AFTER_MS: nat := 2 * 60 * 1000
  const PROCESSING_CONCURRENCY: nat := 5
  const JOB_RETENTION_MS: nat := 24 * 60 * 60 * 1000

  datatype Status = Pending | Processing | Dispatched | Failed | DeadLetter
  {
    predicate Waiting() { Pending? || Failed? }
    predicate Terminal() { Dispatched? || DeadLetter? }
  }

  /** A row; its id is its index, and `payloadOk` says whether its payload parses. */
  datatype Event = Event(
    dedupeKey: nat,
    payloadOk: bool,
    status: Status,
    attempts: nat,
    nextAttemptAt: nat,
    updatedAt: nat)

  datatype Snapshot = Snapshot(id: nat, status: Status, attempts: nat)
  {
    /** A stale reclaim repeats the attempt it found; any other claim starts the next one. */
    function CurrentAttempt(): nat { if status.Processing? then attempts else attempts + 1 }
  }

  predicate IsCandidate(e: Event, tick: nat)
  {
    || (e.status.Waiting() && e.nextAttemptAt <= tick)
    || (e.status.Processing? && e.updatedAt + PROCESSING_STALE_AFTER_MS <= tick)
  }

  predicate ClaimMatches(seen: Status, e: Event, tick: nat)
  {
    if seen.Processing? then e.status.Processing? && e.updatedAt + PROCESSING_STALE_AFTER_MS <= tick
    else e.status.Waiting() && e.nextAttemptAt <= tick
  }

  function ClaimRow(seen: Status, e: Event, now: nat): Event
  {
    e.(status := Processing, attempts := if seen.Processing? then e.attempts else e.attempts + 1, updatedAt := now)
  }

  function DispatchRow(e: Event, now: nat): Event { e.(status := Dispatched, updatedAt := now) }

  function ScrubRow(e: Event, now: nat): Event { e.(status := DeadLetter, updatedAt := now) }

  function FailureStatus(attempt: nat): Status { if attempt >= MAX_ATTEMPTS then DeadLetter else Failed }

  function FailRow(e: Event, attempt: nat, now: nat): Event
  {
    e.(status := FailureStatus(attempt), nextAttemptAt := now + DomainOutbox.BackoffMs(attempt), updatedAt := now)
  }

  // ----- processes

  datatype Phase = Claimed | Enqueued | Threw

  /** One event in flight inside a tick; up to five of a tick's events are in flight together. */
  datatype Flight = Flight(event: Snapshot, claimedAt: nat, phase: Phase)

  datatype SchedulerState =
    | Idle
    | Started(tick: nat)
    | Ticking(tick: nat, waiting: seq<Snapshot>, flights: map<nat, Flight>)

  /** A job the queue has accepted for a row. */
  datatype Job = Job(id: nat, at: nat)

  /** `queue` holds the job ids the queue still knows; `accepted` is every job it ever took up. */
  datatype State = State(
    now: nat,
    events: seq<Event>,
    queue: set<nat>,
    accepted: seq<Job>,
    schedulers: map<nat, SchedulerState>)

  datatype Step =
    | Advance(ms: nat)
    | WriteEvent(dedupeKey: nat, payloadOk: bool)
    | StartTick(k: nat)
    | ReadCandidates(k: nat, ids: seq<nat>)
    | Claim(k: nat)
    | ClaimThrows(k: nat)
    | Scrub(k: nat, id: nat)
    | ScrubThrows(k: nat, id: nat)
    | Enqueue(k: nat, id: nat)
    | EnqueueThrows(k: nat, id: nat)
    | MarkDispatched(k: nat, id: nat)
    | MarkDispatchedThrows(k: nat, id: nat)
    | MarkFailed(k: nat, id: nat)
    | Abandon(k: nat, id: nat)
    | EndTick(k: nat)
    | Crash(k: nat)
    | Forget(id: nat)
  {
    /** The writes that end a flight; none of them has a guard. */
    predicate Landing() { Scrub? || MarkDispatched? || MarkFailed? }
  }

  function SchedulerOf(s: State, k: nat): SchedulerState { if k in s.schedulers then s.schedulers[k] else Idle }

  predicate Flying(s: State, k: nat, id: nat)
  {
    SchedulerOf(s, k).Ticking? && id in SchedulerOf(s, k).flights && id < |s.events|
  }

  function FlightOf(s: State, k: nat, id: nat): Flight
    requires Flying(s, k, id)
  {
    SchedulerOf(s, k).flights[id]
  }

  predicate InFlight(s: State, k: nat, id: nat, phase: Phase)
  {
    Flying(s, k, id) && FlightOf(s, k, id).phase == phase
  }

  predicate Enabled(s: State, step: Step)
  {
    match step
    case Advance(ms) => true
    case WriteEvent(dedupeKey, payloadOk) => true
    case StartTick(k) => SchedulerOf(s, k).Idle?
    case ReadCandidates(k, ids) =>
      && SchedulerOf(s, k).Started?
      && (forall i :: 0 <= i < |ids| ==> ids[i] < |s.events| && IsCandidate(s.events[ids[i]], SchedulerOf(s, k).tick))
      && (forall i, j :: 0 <= i < j < |ids| ==> ids[i] != ids[j])
    case Claim(k) =>
      && SchedulerOf(s, k).Ticking?
      && SchedulerOf(s, k).waiting != []
      && SchedulerOf(s, k).waiting[0].id < |s.events|
      && |SchedulerOf(s, k).flights| < PROCESSING_CONCURRENCY
    case ClaimThrows(k) => SchedulerOf(s, k).Ticking? && SchedulerOf(s, k).waiting != []
    case Scrub(k, id) => InFlight(s, k, id, Claimed) && !s.events[id].payloadOk
    case ScrubThrows(k, id) => InFlight(s, k, id, Claimed) && !s.events[id].payloadOk
    case Enqueue(k, id) => InFlight(s, k, id, Claimed) && s.events[id].payloadOk
    case EnqueueThrows(k, id) => InFlight(s, k, id, Claimed) && s.events[id].payloadOk
    case MarkDispatched(k, id) => InFlight(s, k, id, Enqueued)
    case MarkDispatchedThrows(k, id) => InFlight(s, k, id, Enqueued)
    case MarkFailed(k, id) => InFlight(s, k, id, Threw)
    case Abandon(k, id) => InFlight(s, k, id, Threw)
    case EndTick(k) =>
      SchedulerOf(s, k).Ticking? && SchedulerOf(s, k).waiting == [] && SchedulerOf(s, k).flights == map[]
    case Crash(k) => true
    case Forget(id) =>
      id in s.queue && forall i :: 0 <= i < |s.accepted| && s.accepted[i].id == id ==> s.accepted[i].at + JOB_RETENTION_MS <= s.now
  }

  function SetScheduler(s: State, k: nat, p: SchedulerState): State { s.(schedulers := s.schedulers[k := p]) }

  function SetPhase(s: State, k: nat, id: nat, phase: Phase): State
    requires SchedulerOf(s, k).Ticking? && id in SchedulerOf(s, k).flights
  {
    var p := SchedulerOf(s, k);
    SetScheduler(s, k, p.(flights := p.flights[id := p.flights[id].(phase := phase)]))
  }

  /** The flight of `id` ends, leaving its row as `e`. */
  function Land(s: State, k: nat, id: nat, e: Event): State
    requires SchedulerOf(s, k).Ticking? && id < |s.events|
  {
    var p := SchedulerOf(s, k);
    SetScheduler(s.(events := s.events[id := e]), k, p.(flights := p.flights - {id}))
  }

  function Snap(s: State, id: nat): Snapshot
    requires id < |s.events|
  {
    Snapshot(id, s.events[id].status, s.events[id].attempts)
  }

  function Snaps(s: State, ids: seq<nat>): (r: seq<Snapshot>)
    requires forall i :: 0 <= i < |ids| ==> ids[i] < |s.events|
    ensures |r| == |ids| && forall i :: 0 <= i < |ids| ==> r[i] == Snap(s, ids[i])
  {
    seq(|ids|, i requires 0 <= i < |ids| => Snap(s, ids[i]))
  }

  /** A job id the queue still knows is ignored. */
  function Queued(s: State, id: nat): State
  {
    if id in s.queue then s else s.(queue := s.queue + {id}, accepted := s.accepted + [Job(id, s.now)])
  }

  function Do(s: State, step: Step): State
    requires Enabled(s, step)
  {
    match step
    case Advance(ms) => s.(now := s.now + ms)
    case WriteEvent(dedupeKey, payloadOk) =>
      if exists i :: 0 <= i < |s.events| && s.events[i].dedupeKey == dedupeKey then s
      else s.(events := s.events + [Event(dedupeKey, payloadOk, Pending, 0, s.now, s.now)])
    case StartTick(k) => SetScheduler(s, k, Started(s.now))
    case ReadCandidates(k, ids) => SetScheduler(s, k, Ticking(SchedulerOf(s, k).tick, Snaps(s, ids), map[]))
    case Claim(k) => DoClaim(s, k)
    case ClaimThrows(k) =>
      var p := SchedulerOf(s, k);
      SetScheduler(s, k, p.(waiting := p.waiting[1..]))
    case Enqueue(k, id) => SetPhase(Queued(s, id), k, id, Enqueued)
    case ScrubThrows(k, id) => SetPhase(s, k, id, Threw)
    case EnqueueThrows(k, id) => SetPhase(s, k, id, Threw)
    case MarkDispatchedThrows(k, id) => SetPhase(s, k, id, Threw)
    case Scrub(k, id) => Land(s, k, id, LandedRow(s, step))
    case MarkDispatched(k, id) => Land(s, k, id, LandedRow(s, step))
    case MarkFailed(k, id) => Land(s, k, id, LandedRow(s, step))
    case Abandon(k, id) => Land(s, k, id, s.events[id])
    case EndTick(k) => SetScheduler(s, k, Idle)
    case Crash(k) => SetScheduler(s, k, Idle)
    case Forget(id) => s.(queue := s.queue - {id})
  }

  function LandedRow(s: State, step: Step): Event
    requires Enabled(s, step) && step.Landing()
  {
    var e := s.events[step.id];
    match step
    case Scrub(k, id) => ScrubRow(e, s.now)
    case MarkDispatched(k, id) => DispatchRow(e, s.now)
    case MarkFailed(k, id) => FailRow(e, FlightOf(s, k, id).event.CurrentAttempt(), s.now)
  }

  function DoClaim(s: State, k: nat): State
    requires Enabled(s, Claim(k))
  {
    var p := SchedulerOf(s, k);
    var seen := p.waiting[0];
    var e := s.events[seen.id];
    if ClaimMatches(seen.status, e, p.tick) then
      SetScheduler(s.(events := s.events[seen.id := ClaimRow(seen.status, e, s.now)]), k,
                   Ticking(p.tick, p.waiting[1..], p.flights[seen.id := Flight(seen, s.now, Claimed)]))
    else
      SetScheduler(s, k, Ticking(p.tick, p.waiting[1..], p.flights))
  }

  // ----- runs

  ghost predicate Initial(s: State)
  {
    s.events == [] && s.queue == {} && s.accepted == [] && s.schedulers == map[]
  }

  /**
    What a run keeps to. `Alone`: no tick starts while another is under way. `Timely`: a flight lands
    within two minutes of its claim. `Meeting`: a flight lands on the row as its claim left it. `Free`: nothing.
   */
  datatype Discipline = Free | Alone | Timely | Meeting

  /** The row is still as the flight's claim left it. */
  predicate Meets(e: Event, f: Flight)
  {
    e.status.Processing? && e.attempts == f.event.CurrentAttempt() && e.updatedAt == f.claimedAt
  }

  predicate InTime(f: Flight, now: nat) { now < f.claimedAt + PROCESSING_STALE_AFTER_MS }

  ghost predicate Keeps(s: State, step: Step, d: Discipline)
    requires Enabled(s, step)
  {
    match d
    case Free => true
    case Alone => step.StartTick? ==> forall k :: k in s.schedulers ==> s.schedulers[k].Idle?
    case Timely => step.Landing() ==> InTime(FlightOf(s, step.k, step.id), s.now)
    case Meeting => step.Landing() ==> Meets(s.events[step.id], FlightOf(s, step.k, step.id))
  }

  ghost predicate ValidRun(s: State, run: seq<Step>, d: Discipline)
    decreases |run|
  {
    run != [] ==> Enabled(s, run[0]) && Keeps(s, run[0], d) && ValidRun(Do(s, run[0]), run[1..], d)
  }

  ghost function After(s: State, run: seq<Step>): State
    decreases |run|
  {
    if run == [] || !Enabled(s, run[0]) then s else After(Do(s, run[0]), run[1..])
  }

  ghost predicate Reachable(s: State, d: Discipline)
  {
    exists init, run :: Initial(init) && ValidRun(init, run, d) && After(init, run) == s
  }

  // ----- invariants

  predicate EventOk(e: Event, now: nat)
  {
    && e.updatedAt <= now
    && e.attempts <= MAX_ATTEMPTS
    && (e.status.Pending? ==> e.attempts == 0 && e.nextAttemptAt <= e.updatedAt)
    && (e.status.Failed? ==> 1 <= e.attempts < MAX_ATTEMPTS && e.nextAttemptAt <= e.updatedAt + 900_000)
    && (e.status.Processing? ==> 1 <= e.attempts)
  }

  ghost predicate WasAccepted(s: State, id: nat)
  {
    exists i :: 0 <= i < |s.accepted| && s.accepted[i].id == id
  }

  ghost predicate EventsOk(s: State)
  {
    && (forall i :: 0 <= i < |s.events| ==> EventOk(s.events[i], s.now))
    && (forall i :: 0 <= i < |s.events| && s.events[i].status.Dispatched? ==> WasAccepted(s, i))
    && (forall i, j :: 0 <= i < j < |s.events| ==> s.events[i].dedupeKey != s.events[j].dedupeKey)
  }

  /** What the queue still knows, and for how long at least. */
  ghost predicate QueueOk(s: State)
  {
    && (forall id :: id in s.queue ==> WasAccepted(s, id))
    && (forall i :: 0 <= i < |s.accepted| ==> s.accepted[i].at <= s.now)
    && (forall i :: 0 <= i < |s.accepted| && s.now < s.accepted[i].at + JOB_RETENTION_MS ==> s.accepted[i].id in s.queue)
  }

  /** A row read earlier either is as it was read, or its claim will find nothing. */
  predicate SeenOk(events: seq<Event>, tick: nat, seen: Snapshot)
  {
    && seen.id < |events|
    && (ClaimMatches(seen.status, events[seen.id], tick) ==> events[seen.id].attempts == seen.attempts)
  }

  ghost predicate TickOk(s: State, p: SchedulerState)
  {
    && (p.Started? ==> p.tick <= s.now)
    && (p.Ticking? ==>
      && p.tick <= s.now
      && (forall i :: 0 <= i < |p.waiting| ==> SeenOk(s.events, p.tick, p.waiting[i]))
      && (forall id :: id in p.flights ==>
            id < |s.events| && p.flights[id].claimedAt <= s.now && (p.flights[id].phase.Enqueued? ==> WasAccepted(s, id))))
  }

  ghost predicate TablesOk(s: State)
  {
    EventsOk(s) && QueueOk(s) && forall k :: k in s.schedulers ==> TickOk(s, s.schedulers[k])
  }

  /** A flight in time meets its row; alone, every flight does. Never do two flights meet the same row. */
  ghost predicate FlightsMeet(s: State, d: Discipline)
  {
    && (forall k: nat, id: nat :: Flying(s, k, id) && (d.Alone? || InTime(FlightOf(s, k, id), s.now)) ==>
          Meets(s.events[id], FlightOf(s, k, id)))
    && (forall k: nat, l: nat, id: nat :: BothMeet(s, k, l, id) ==> k == l)
  }

  predicate BothMeet(s: State, k: nat, l: nat, id: nat)
  {
    Flying(s, k, id) && Flying(s, l, id) && Meets(s.events[id], FlightOf(s, k, id)) && Meets(s.events[id], FlightOf(s, l, id))
  }

  ghost predicate OneTick(s: State)
  {
    && (forall k, l :: k in s.schedulers && l in s.schedulers && k != l ==> s.schedulers[k].Idle? || s.schedulers[l].Idle?)
    && (forall k :: k in s.schedulers && s.schedulers[k].Ticking? ==> OwnRows(s.schedulers[k].waiting, s.schedulers[k].flights))
  }

  /** What waits in a tick is neither listed twice nor already in flight. */
  ghost predicate OwnRows(waiting: seq<Snapshot>, flights: map<nat, Flight>)
  {
    && (forall i :: 0 <= i < |waiting| ==> waiting[i].id !in flights)
    && (forall i, j :: 0 <= i < j < |waiting| ==> waiting[i].id != waiting[j].id)
  }

  ghost predicate Inv(s: State, d: Discipline)
  {
    TablesOk(s) && FlightsMeet(s, d) && (d.Alone? ==> OneTick(s))
  }

  lemma LandingMeets(s: State, step: Step, d: Discipline)
    requires Inv(s, d) && !d.Free? && Enabled(s, step) && Keeps(s, step, d) && step.Landing()
    ensures Meets(s.events[step.id], FlightOf(s, step.k, step.id))
  {}

  // ----- every step keeps the tables

  /** A row that moves leaves every other memory of it sound. */
  predicate RowMoves(e: Event, f: Event, now: nat)
  {
    && f.dedupeKey == e.dedupeKey
    && (f == e || (f.updatedAt == now && (f.status.Waiting() ==> f.nextAttemptAt > now)))
  }

  lemma SeenSurvives(events: seq<Event>, id: nat, f: Event, tick: nat, now: nat, seen: Snapshot)
    requires id < |events| && RowMoves(events[id], f, now) && tick <= now && SeenOk(events, tick, seen)
    ensures SeenOk(events[id := f], tick, seen)
  {}

  lemma TicksSurvive(s: State, t: State, k: nat, id: nat, f: Event)
    requires TablesOk(s) && id < |s.events| && RowMoves(s.events[id], f, s.now)
    requires t.events == s.events[id := f] && t.now == s.now && t.accepted == s.accepted
    requires k in t.schedulers && t.schedulers == s.schedulers[k := t.schedulers[k]]
    ensures forall l :: l in t.schedulers && l != k ==> TickOk(t, t.schedulers[l])
  {
    forall l | l in t.schedulers && l != k ensures TickOk(t, t.schedulers[l]) {
      var p := s.schedulers[l];
      assert TickOk(s, p);
      if p.Ticking? {
        forall i | 0 <= i < |p.waiting| ensures SeenOk(t.events, p.tick, p.waiting[i]) {
          SeenSurvives(s.events, id, f, p.tick, s.now, p.waiting[i]);
        }
        forall i | i in p.flights && p.flights[i].phase.Enqueued? ensures WasAccepted(t, i) { assert WasAccepted(s, i); }
      }
    }
  }

  lemma EventsSurvive(s: State, t: State, id: nat, f: Event)
    requires TablesOk(s) && id < |s.events| && RowMoves(s.events[id], f, s.now) && EventOk(f, s.now)
    requires f.status.Dispatched? ==> WasAccepted(s, id)
    requires t.events == s.events[id := f] && t.now == s.now && t.accepted == s.accepted && t.queue == s.queue
    ensures EventsOk(t) && QueueOk(t)
  {
    forall i | 0 <= i < |t.events| && t.events[i].status.Dispatched? ensures WasAccepted(t, i) { assert WasAccepted(s, i); }
    forall i | i in t.queue ensures WasAccepted(t, i) { assert WasAccepted(s, i); }
  }

  lemma LandKeepsTables(s: State, k: nat, id: nat, f: Event)
    requires TablesOk(s) && Flying(s, k, id) && RowMoves(s.events[id], f, s.now) && EventOk(f, s.now)
    requires f.status.Dispatched? ==> WasAccepted(s, id)
    ensures TablesOk(Land(s, k, id, f))
  {
    var t := Land(s, k, id, f);
    EventsSurvive(s, t, id, f);
    TicksSurvive(s, t, k, id, f);
    var p := s.schedulers[k];
    assert TickOk(s, p);
    forall i | 0 <= i < |p.waiting| ensures SeenOk(t.events, p.tick, p.waiting[i]) {
      SeenSurvives(s.events, id, f, p.tick, s.now, p.waiting[i]);
    }
    forall i | i in p.flights && p.flights[i].phase.Enqueued? ensures WasAccepted(t, i) { assert WasAccepted(s, i); }
  }

  lemma LandingKeepsTables(s: State, step: Step)
    requires TablesOk(s) && Enabled(s, step) && (step.Landing() || step.Abandon?)
    requires step.Landing() ==> Meets(s.events[step.id], FlightOf(s, step.k, step.id))
    ensures TablesOk(Do(s, step))
  {
    assert TickOk(s, s.schedulers[step.k]);
    if step.Landing() {
      DomainOutbox.BackoffDoubles(FlightOf(s, step.k, step.id).event.CurrentAttempt());
      LandKeepsTables(s, step.k, step.id, LandedRow(s, step));
    } else {
      assert s.events[step.id := s.events[step.id]] == s.events;
      LandKeepsTables(s, step.k, step.id, s.events[step.id]);
    }
  }

  lemma ClaimKeepsTables(s: State, k: nat)
    requires TablesOk(s) && Enabled(s, Claim(k))
    ensures TablesOk(Do(s, Claim(k)))
  {
    var t := Do(s, Claim(k));
    var p := s.schedulers[k];
    var seen := p.waiting[0];
    assert TickOk(s, p) && SeenOk(s.events, p.tick, seen);
    var f := t.events[seen.id];
    assert t.events == s.events[seen.id := f];
    EventsSurvive(s, t, seen.id, f);
    TicksSurvive(s, t, k, seen.id, f);
    forall i | 0 <= i < |p.waiting| ensures SeenOk(t.events, p.tick, p.waiting[i]) {
      SeenSurvives(s.events, seen.id, f, p.tick, s.now, p.waiting[i]);
    }
    forall i | i in p.flights && p.flights[i].phase.Enqueued? ensures WasAccepted(t, i) { assert WasAccepted(s, i); }
  }

  lemma EnqueueKeepsTables(s: State, k: nat, id: nat)
    requires TablesOk(s) && Enabled(s, Enqueue(k, id))
    ensures TablesOk(Do(s, Enqueue(k, id)))
  {
    var t := Do(s, Enqueue(k, id));
    AcceptedSurvives(s, t);
    assert WasAccepted(t, id) by {
      if id in s.queue { assert WasAccepted(s, id); } else { assert t.accepted[|s.accepted|].id == id; }
    }
    forall l | l in t.schedulers ensures TickOk(t, t.schedulers[l]) { assert TickOk(s, s.schedulers[l]); }
  }

  lemma AcceptedSurvives(s: State, t: State)
    requires s.accepted <= t.accepted
    ensures forall id :: WasAccepted(s, id) ==> WasAccepted(t, id)
  {
    forall id | WasAccepted(s, id) ensures WasAccepted(t, id) {
      var i :| 0 <= i < |s.accepted| && s.accepted[i].id == id;
      assert t.accepted[i].id == id;
    }
  }

  lemma TableGrowsKeepsTables(s: State, t: State)
    requires TablesOk(s) && t.now >= s.now && t.accepted == s.accepted && t.schedulers == s.schedulers
    requires s.events <= t.events && EventsOk(t) && QueueOk(t)
    ensures TablesOk(t)
  {
    AcceptedSurvives(s, t);
    forall k | k in t.schedulers ensures TickOk(t, t.schedulers[k]) { assert TickOk(s, s.schedulers[k]); }
  }

  lemma SchedulingKeepsTables(s: State, k: nat, p: SchedulerState)
    requires TablesOk(s) && TickOk(s, p)
    ensures TablesOk(SetScheduler(s, k, p))
  {
    var t := SetScheduler(s, k, p);
    AcceptedSurvives(s, t);
    AcceptedSurvives(t, s);
    forall l | l in t.schedulers ensures TickOk(t, t.schedulers[l]) {
      if l != k { assert TickOk(s, s.schedulers[l]); }
    }
  }

  lemma TimeKeepsTables(s: State, step: Step)
    requires TablesOk(s) && Enabled(s, step) && (step.Advance? || step.WriteEvent? || step.Forget?)
    ensures TablesOk(Do(s, step))
  {
    var t := Do(s, step);
    AcceptedSurvives(s, t);
    TableGrowsKeepsTables(s, t);
  }

  lemma StepKeepsTables(s: State, step: Step)
    requires TablesOk(s) && Enabled(s, step) && Keeps(s, step, Meeting)
    ensures TablesOk(Do(s, step))
  {
    match step
    case Advance(ms) => TimeKeepsTables(s, step);
    case WriteEvent(dedupeKey, payloadOk) => TimeKeepsTables(s, step);
    case Forget(id) => TimeKeepsTables(s, step);
    case Claim(k) => ClaimKeepsTables(s, k);
    case Enqueue(k, id) => EnqueueKeepsTables(s, k, id);
    case Scrub(k, id) => LandingKeepsTables(s, step);
    case MarkDispatched(k, id) => LandingKeepsTables(s, step);
    case MarkFailed(k, id) => LandingKeepsTables(s, step);
    case Abandon(k, id) => LandingKeepsTables(s, step);
    case _ =>
      if step.k in s.schedulers { assert TickOk(s, s.schedulers[step.k]); }
      SchedulingKeepsTables(s, step.k, Do(s, step).schedulers[step.k]);
  }

  // ----- every step keeps the flights

  /** Flights that are as they were, over rows that are as they were. */
  lemma FlightsSurvive(s: State, t: State, d: Discipline)
    requires FlightsMeet(s, d) && t.now >= s.now
    requires forall k: nat, id: nat :: Flying(t, k, id) ==>
      Flying(s, k, id) && t.events[id] == s.events[id]
      && FlightOf(t, k, id).event == FlightOf(s, k, id).event && FlightOf(t, k, id).claimedAt == FlightOf(s, k, id).claimedAt
    ensures FlightsMeet(t, d)
  {
    forall k: nat, l: nat, id: nat | BothMeet(t, k, l, id) ensures k == l { assert BothMeet(s, k, l, id); }
  }

  /** Of the flights of a row just claimed, only the claimer's meets it. */
  lemma OnlyTheClaimerMeets(s: State, k: nat, l: nat, id: nat, d: Discipline)
    requires Inv(s, d) && Enabled(s, Claim(k)) && SchedulerOf(s, k).waiting[0].id == id
    requires ClaimMatches(SchedulerOf(s, k).waiting[0].status, s.events[id], SchedulerOf(s, k).tick)
    requires Flying(Do(s, Claim(k)), l, id)
    ensures l == k <==> Meets(Do(s, Claim(k)).events[id], FlightOf(Do(s, Claim(k)), l, id))
    ensures d.Alone? || InTime(FlightOf(Do(s, Claim(k)), l, id), s.now) ==> l == k
  {
    assert TickOk(s, s.schedulers[k]) && SeenOk(s.events, SchedulerOf(s, k).tick, SchedulerOf(s, k).waiting[0]);
    if l != k { assert Flying(s, l, id) && TickOk(s, s.schedulers[l]); }
  }

  lemma ClaimKeepsFlights(s: State, k: nat, d: Discipline)
    requires Inv(s, d) && Enabled(s, Claim(k))
    ensures FlightsMeet(Do(s, Claim(k)), d)
  {
    var t := Do(s, Claim(k));
    var p := s.schedulers[k];
    var seen := p.waiting[0];
    if !ClaimMatches(seen.status, s.events[seen.id], p.tick) {
      FlightsSurvive(s, t, d);
    } else {
      forall l: nat, id: nat | Flying(t, l, id) && (d.Alone? || InTime(FlightOf(t, l, id), t.now))
        ensures Meets(t.events[id], FlightOf(t, l, id))
      {
        if id == seen.id { OnlyTheClaimerMeets(s, k, l, id, d); } else { assert Flying(s, l, id); }
      }
      forall l: nat, m: nat, id: nat | BothMeet(t, l, m, id) ensures l == m {
        if id == seen.id {
          OnlyTheClaimerMeets(s, k, l, id, d);
          OnlyTheClaimerMeets(s, k, m, id, d);
        } else {
          assert BothMeet(s, l, m, id);
        }
      }
    }
  }

  /** The row a flight lands on is nobody else's. */
  lemma LandingIsUndisputed(s: State, step: Step, d: Discipline, l: nat)
    requires Inv(s, d) && Enabled(s, step) && step.Landing() && Meets(s.events[step.id], FlightOf(s, step.k, step.id))
    requires Flying(s, l, step.id) && (d.Alone? || InTime(FlightOf(s, l, step.id), s.now))
    ensures l == step.k
  {
    assert BothMeet(s, step.k, l, step.id);
  }

  lemma LandingKeepsFlights(s: State, step: Step, d: Discipline)
    requires Inv(s, d) && Enabled(s, step) && step.Landing() && Meets(s.events[step.id], FlightOf(s, step.k, step.id))
    ensures FlightsMeet(Do(s, step), d)
  {
    var t := Do(s, step);
    forall l: nat, id: nat | Flying(t, l, id) && (d.Alone? || InTime(FlightOf(t, l, id), t.now))
      ensures Meets(t.events[id], FlightOf(t, l, id))
    {
      assert Flying(s, l, id);
      if id == step.id { LandingIsUndisputed(s, step, d, l); }
    }
    forall l: nat, m: nat, id: nat | BothMeet(t, l, m, id) ensures l == m { assert BothMeet(s, l, m, id); }
  }

  lemma StepKeepsFlights(s: State, step: Step, d: Discipline)
    requires Inv(s, d) && Enabled(s, step)
    requires step.Landing() ==> Meets(s.events[step.id], FlightOf(s, step.k, step.id))
    ensures FlightsMeet(Do(s, step), d)
  {
    if step.Claim? {
      ClaimKeepsFlights(s, step.k, d);
    } else if step.Landing() {
      LandingKeepsFlights(s, step, d);
    } else {
      forall k | k in s.schedulers ensures TickOk(s, s.schedulers[k]) {}
      FlightsSurvive(s, Do(s, step), d);
    }
  }

  lemma StepKeepsOneTick(s: State, step: Step)
    requires OneTick(s) && Enabled(s, step) && Keeps(s, step, Alone)
    ensures OneTick(Do(s, step))
  {
    var t := Do(s, step);
    if step.Claim? || step.ClaimThrows? {
      var p := s.schedulers[step.k];
      assert OwnRows(p.waiting, p.flights);
      assert OwnRows(t.schedulers[step.k].waiting, t.schedulers[step.k].flights);
    } else {
      forall k | k in t.schedulers && t.schedulers[k].Ticking? ensures OwnRows(t.schedulers[k].waiting, t.schedulers[k].flights) {
        if !step.ReadCandidates? || k != step.k { assert OwnRows(s.schedulers[k].waiting, s.schedulers[k].flights); }
      }
    }
  }

  lemma StepKeepsInv(s: State, step: Step, d: Discipline)
    requires Inv(s, d) && !d.Free? && Enabled(s, step) && Keeps(s, step, d)
    ensures Inv(Do(s, step), d)
  {
    if step.Landing() { LandingMeets(s, step, d); }
    StepKeepsTables(s, step);
    StepKeepsFlights(s, step, d);
    if d.Alone? { StepKeepsOneTick(s, step); }
  }

  lemma {:induction false} RunKeepsInv(s: State, run: seq<Step>, d: Discipline)
    requires Inv(s, d) && !d.Free? && ValidRun(s, run, d)
    ensures Inv(After(s, run), d)
    ensures ValidRun(s, run, Meeting)
    decreases |run|
  {
    if run != [] {
      if run[0].Landing() { LandingMeets(s, run[0], d); }
      StepKeepsInv(s, run[0], d);
      RunKeepsInv(Do(s, run[0]), run[1..], d);
    }
  }

  lemma ReachableInv(s: State, d: Discipline)
    requires Reachable(s, d) && !d.Free?
    ensures Inv(s, d)
    ensures Reachable(s, Meeting)
  {
    var init, run :| Initial(init) && ValidRun(init, run, d) && After(init, run) == s;
    RunKeepsInv(init, run, d);
  }

  /** Reachable states are closed under steps that keep the discipline. */
  lemma Take(s: State, step: Step, d: Discipline) returns (t: State)
    requires Reachable(s, d) && Enabled(s, step) && Keeps(s, step, d)
    ensures t == Do(s, step) && Reachable(t, d)
  {
    t := Do(s, step);
    var init, run :| Initial(init) && ValidRun(init, run, d) && After(init, run) == s;
    AppendStep(init, run, step, d);
  }

  lemma {:induction false} AppendStep(s: State, run: seq<Step>, step: Step, d: Discipline)
    requires ValidRun(s, run, d)
    requires Enabled(After(s, run), step) && Keeps(After(s, run), step, d)
    ensures ValidRun(s, run + [step], d)
    ensures After(s, run + [step]) == Do(After(s, run), step)
    decreases |run|
  {
    if run == [] {
      assert run + [step] == [step];
      assert After(Do(s, step), []) == Do(s, step);
    } else {
      assert (run + [step])[1..] == run[1..] + [step];
      AppendStep(Do(s, run[0]), run[1..], step, d);
    }
  }
}
