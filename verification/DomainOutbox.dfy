/**
  The domain outbox: rows of the `DomainOutboxEvent` table, the schedulers that claim and
  dispatch them, the job queue, and the workers that run the effects.

  Every SQL statement, queue call and effect is one atomic step, and the steps of any number of
  schedulers and workers interleave freely. Time is in milliseconds on one shared clock.
 */
module DomainOutbox {
  import opened Foundations

  const MAX_ATTEMPTS: nat := 8
  const PROCESSING_STALE_AFTER_MS: nat := 2 * 60 * 1000
  const DISPATCH_STALE_AFTER_MS: nat := 30 * 60 * 1000
  const MAX_BACKOFF_SECONDS: nat := 15 * 60

  datatype EventType = ReferralCompletion | PayoutProcessing

  datatype Status = Pending | Processing | Dispatched | Completed | Failed | DeadLetter
  {
    predicate Terminal() { Completed? || DeadLetter? }
    predicate InFlight() { Processing? || Dispatched? }
    predicate Waiting() { Pending? || Failed? }
  }

  /** A row; its id is its index in the table, because rows are never deleted. */
  datatype Event = Event(
    eventType: EventType,
    aggregateId: nat,
    status: Status,
    attempts: nat,
    nextAttemptAt: nat,
    updatedAt: nat,
    processedAt: Option<nat>)

  /** What a scheduler remembers of a row from its unlocked candidate query. */
  datatype Snapshot = Snapshot(id: nat, status: Status, attempts: nat)

  /** The queue identifies a job by event id and attempt. */
  datatype Job = Job(id: nat, attempt: nat)

  /** For one row, which of the statements of a pass throw: its claim, its enqueue, the write of its outcome, its failure write. */
  datatype Faults = Faults(claim: bool, enqueue: bool, write: bool, failure: bool)
  {
    predicate Dispatches() { !claim && !enqueue && !write }
    predicate Queues() { !claim && !enqueue }
  }

  // ----- the statements, each as a function of the row it touches

  predicate IsCandidate(e: Event, tick: nat)
  {
    || (e.status.Waiting() && e.nextAttemptAt <= tick)
    || (e.status.Processing? && e.updatedAt + PROCESSING_STALE_AFTER_MS <= tick)
    || (e.status.Dispatched? && e.nextAttemptAt <= tick)
  }

  /** The claim's WHERE clause, chosen by the status seen earlier and judged on the row as it is now. */
  predicate ClaimMatches(seen: Status, e: Event, tick: nat)
  {
    if seen.Processing? then
      e.status.Processing? && e.updatedAt + PROCESSING_STALE_AFTER_MS <= tick
    else if seen.Dispatched? then
      e.status.Dispatched? && e.nextAttemptAt <= tick
    else
      e.status.Waiting() && e.nextAttemptAt <= tick
  }

  function ClaimRow(e: Event, now: nat): Event
  {
    e.(status := Processing, attempts := e.attempts + 1, updatedAt := now)
  }

  /** The DISPATCHED write is guarded by status alone, not by the attempt. */
  function DispatchRow(e: Event, tick: nat, now: nat): Event
  {
    if e.status.Processing? then
      e.(status := Dispatched, nextAttemptAt := tick + DISPATCH_STALE_AFTER_MS, processedAt := None, updatedAt := now)
    else e
  }

  predicate Fenced(e: Event, attempt: nat)
  {
    e.attempts == attempt && e.status.InFlight()
  }

  function CompleteRow(e: Event, attempt: nat, now: nat): Event
  {
    if Fenced(e, attempt) then e.(status := Completed, processedAt := Some(now), updatedAt := now) else e
  }

  function FailureStatus(attempt: nat, terminal: bool): Status
  {
    if terminal || attempt >= MAX_ATTEMPTS then DeadLetter else Failed
  }

  function FailRow(e: Event, attempt: nat, terminal: bool, now: nat): Event
  {
    if Fenced(e, attempt) then
      var status := FailureStatus(attempt, terminal);
      e.(status := status, nextAttemptAt := now + BackoffMs(attempt),
         processedAt := if status.DeadLetter? then Some(now) else None, updatedAt := now)
    else e
  }

  function Pow2(n: nat): nat { if n == 0 then 1 else 2 * Pow2(n - 1) }

  function BackoffMs(attempt: nat): nat
  {
    var seconds := 10 * Pow2(if attempt == 0 then 0 else attempt - 1);
    1000 * (if seconds < MAX_BACKOFF_SECONDS then seconds else MAX_BACKOFF_SECONDS)
  }

  /** Retries back off exponentially from ten seconds and never wait longer than fifteen minutes. */
  lemma {:induction false} BackoffDoubles(attempt: nat)
    ensures 10_000 <= BackoffMs(attempt) <= 900_000
    ensures BackoffMs(attempt) <= BackoffMs(attempt + 1)
    ensures 1 <= attempt <= 6 ==> BackoffMs(attempt + 1) == 2 * BackoffMs(attempt)
    ensures attempt >= 8 ==> BackoffMs(attempt) == 900_000
  {
    Pow2Positive(if attempt == 0 then 0 else attempt - 1);
    if attempt >= 8 { Pow2AtLeast128(attempt - 1); }
    if 1 <= attempt <= 6 { Pow2AtMost32(attempt - 1); }
  }

  lemma Pow2Positive(n: nat)
    ensures Pow2(n) >= 1
  {}

  lemma {:induction false} Pow2AtLeast128(n: nat)
    requires n >= 7
    ensures Pow2(n) >= 128
  {
    if n == 7 {
      assert Pow2(7) == 2 * Pow2(6) == 4 * Pow2(5) == 8 * Pow2(4) == 16 * Pow2(3) == 32 * Pow2(2) == 64 * Pow2(1);
    } else {
      Pow2AtLeast128(n - 1);
    }
  }

  lemma {:induction false} Pow2AtMost32(n: nat)
    requires n <= 5
    ensures Pow2(n) <= 32
  {
    if n != 0 {
      assert Pow2(5) == 2 * Pow2(4) == 4 * Pow2(3) == 8 * Pow2(2) == 16 * Pow2(1);
    }
  }

  // ----- processes

  /** One scheduler process; the `isProcessing` guard gives it at most one tick at a time. */
  datatype SchedulerState =
    | Idle
    | Started(tick: nat)
    | Looping(tick: nat, candidates: seq<Snapshot>)
    | Claimed(tick: nat, event: Snapshot, rest: seq<Snapshot>)
    | Enqueued(tick: nat, event: Snapshot, rest: seq<Snapshot>)
    | DispatchThrew(tick: nat, event: Snapshot, rest: seq<Snapshot>)
  {
    /** The attempt number the scheduler works with: one more than it read before claiming. */
    function CurrentAttempt(): nat requires Claimed? || Enqueued? || DispatchThrew? { event.attempts + 1 }
  }

  datatype WorkerState =
    | Free
    | Running(job: Job)
    | EffectDone(job: Job)
    | EffectFailed(job: Job, terminal: bool)

  datatype State = State(
    now: nat,
    events: seq<Event>,
    queue: seq<Job>,
    finished: set<Job>,
    schedulers: map<nat, SchedulerState>,
    workers: map<nat, WorkerState>)

  datatype Step =
    | Advance(ms: nat)
    | CreateEvent(eventType: EventType, aggregateId: nat)
    | StartTick(k: nat)
    | ReadCandidates(k: nat, ids: seq<nat>)
    | Claim(k: nat)
    | ClaimThrows(k: nat)
    | Enqueue(k: nat)
    | EnqueueThrows(k: nat)
    | MarkDispatched(k: nat)
    | MarkDispatchedThrows(k: nat)
    | MarkUndispatched(k: nat)
    | MarkUndispatchedThrows(k: nat)
    | EndTick(k: nat)
    | CrashScheduler(k: nat)
    | Resolve(w: nat, job: Job)
    | EffectSucceeds(w: nat)
    | EffectThrows(w: nat, terminal: bool)
    | EffectWillRetry(w: nat)
    | MarkCompleted(w: nat)
    | MarkFailed(w: nat)
    | CrashWorker(w: nat)

  function SchedulerOf(s: State, k: nat): SchedulerState { if k in s.schedulers then s.schedulers[k] else Idle }

  function WorkerOf(s: State, w: nat): WorkerState { if w in s.workers then s.workers[w] else Free }

  function SetScheduler(s: State, k: nat, p: SchedulerState): State { s.(schedulers := s.schedulers[k := p]) }

  function SetWorker(s: State, w: nat, p: WorkerState): State { s.(workers := s.workers[w := p]) }

  function SetEvent(s: State, id: nat, e: Event): State
    requires id < |s.events|
  {
    s.(events := s.events[id := e])
  }

  predicate SameDedupeKey(e: Event, eventType: EventType, aggregateId: nat)
  {
    e.eventType == eventType && e.aggregateId == aggregateId
  }

  function Snap(s: State, id: nat): Snapshot
    requires id < |s.events|
  {
    Snapshot(id, s.events[id].status, s.events[id].attempts)
  }

  function Snaps(s: State, ids: seq<nat>): (r: seq<Snapshot>)
    requires forall i :: 0 <= i < |ids| ==> ids[i] < |s.events|
    ensures |r| == |ids| && forall i :: 0 <= i < |ids| ==> r[i] == Snap(s, ids[i])
  {
    seq(|ids|, i requires 0 <= i < |ids| => Snap(s, ids[i]))
  }

  predicate Executable(s: State, job: Job)
  {
    job.id < |s.events| && Fenced(s.events[job.id], job.attempt)
  }

  predicate Enabled(s: State, step: Step)
  {
    match step
    case Advance(ms) => true
    case CreateEvent(eventType, aggregateId) => true
    case StartTick(k) => SchedulerOf(s, k).Idle?
    case ReadCandidates(k, ids) =>
      && SchedulerOf(s, k).Started?
      && (forall i :: 0 <= i < |ids| ==> ids[i] < |s.events| && IsCandidate(s.events[ids[i]], SchedulerOf(s, k).tick))
    case Claim(k) =>
      && SchedulerOf(s, k).Looping?
      && SchedulerOf(s, k).candidates != []
      && SchedulerOf(s, k).candidates[0].id < |s.events|
    case ClaimThrows(k) => SchedulerOf(s, k).Looping? && SchedulerOf(s, k).candidates != []
    case Enqueue(k) => SchedulerOf(s, k).Claimed?
    case EnqueueThrows(k) => SchedulerOf(s, k).Claimed?
    case MarkDispatched(k) => SchedulerOf(s, k).Enqueued? && SchedulerOf(s, k).event.id < |s.events|
    case MarkDispatchedThrows(k) => SchedulerOf(s, k).Enqueued?
    case MarkUndispatched(k) => SchedulerOf(s, k).DispatchThrew? && SchedulerOf(s, k).event.id < |s.events|
    case MarkUndispatchedThrows(k) => SchedulerOf(s, k).DispatchThrew?
    case EndTick(k) => SchedulerOf(s, k).Looping? && SchedulerOf(s, k).candidates == []
    case CrashScheduler(k) => true
    case Resolve(w, job) => WorkerOf(s, w).Free? && job in s.queue
    case EffectSucceeds(w) => WorkerOf(s, w).Running?
    case EffectThrows(w, terminal) => WorkerOf(s, w).Running?
    case EffectWillRetry(w) => WorkerOf(s, w).Running?
    case MarkCompleted(w) => WorkerOf(s, w).EffectDone? && WorkerOf(s, w).job.id < |s.events|
    case MarkFailed(w) => WorkerOf(s, w).EffectFailed? && WorkerOf(s, w).job.id < |s.events|
    case CrashWorker(w) => true
  }

  function Do(s: State, step: Step): State
    requires Enabled(s, step)
  {
    match step
    case Advance(ms) => s.(now := s.now + ms)
    case CreateEvent(eventType, aggregateId) => DoCreate(s, eventType, aggregateId)
    case StartTick(k) => SetScheduler(s, k, Started(s.now))
    case ReadCandidates(k, ids) =>
      SetScheduler(s, k, Looping(SchedulerOf(s, k).tick, Snaps(s, ids)))
    case Claim(k) => DoClaim(s, k)
    case ClaimThrows(k) =>
      var p := SchedulerOf(s, k);
      SetScheduler(s, k, Looping(p.tick, p.candidates[1..]))
    case Enqueue(k) =>
      var p := SchedulerOf(s, k);
      SetScheduler(s.(queue := s.queue + [Job(p.event.id, p.CurrentAttempt())]), k, Enqueued(p.tick, p.event, p.rest))
    case EnqueueThrows(k) =>
      var p := SchedulerOf(s, k);
      SetScheduler(s, k, DispatchThrew(p.tick, p.event, p.rest))
    case MarkDispatched(k) =>
      var p := SchedulerOf(s, k);
      SetScheduler(SetEvent(s, p.event.id, DispatchRow(s.events[p.event.id], p.tick, s.now)), k, Looping(p.tick, p.rest))
    case MarkDispatchedThrows(k) =>
      var p := SchedulerOf(s, k);
      SetScheduler(s, k, DispatchThrew(p.tick, p.event, p.rest))
    case MarkUndispatched(k) =>
      var p := SchedulerOf(s, k);
      SetScheduler(SetEvent(s, p.event.id, FailRow(s.events[p.event.id], p.CurrentAttempt(), false, s.now)),
                   k, Looping(p.tick, p.rest))
    case MarkUndispatchedThrows(k) =>
      var p := SchedulerOf(s, k);
      SetScheduler(s, k, Looping(p.tick, p.rest))
    case EndTick(k) => SetScheduler(s, k, Idle)
    case CrashScheduler(k) => SetScheduler(s, k, Idle)
    case Resolve(w, job) => if Executable(s, job) then SetWorker(s, w, Running(job)) else s
    case EffectSucceeds(w) =>
      var job := WorkerOf(s, w).job;
      SetWorker(s.(finished := s.finished + {job}), w, EffectDone(job))
    case EffectThrows(w, terminal) => SetWorker(s, w, EffectFailed(WorkerOf(s, w).job, terminal))
    case EffectWillRetry(w) => SetWorker(s, w, Free)
    case MarkCompleted(w) =>
      var job := WorkerOf(s, w).job;
      SetWorker(SetEvent(s, job.id, CompleteRow(s.events[job.id], job.attempt, s.now)), w, Free)
    case MarkFailed(w) =>
      var p := WorkerOf(s, w);
      SetWorker(SetEvent(s, p.job.id, FailRow(s.events[p.job.id], p.job.attempt, p.terminal, s.now)), w, Free)
    case CrashWorker(w) => SetWorker(s, w, Free)
  }

  /** `createMany` with `skipDuplicates` on the dedupe key. */
  function DoCreate(s: State, eventType: EventType, aggregateId: nat): State
  {
    if exists i :: 0 <= i < |s.events| && SameDedupeKey(s.events[i], eventType, aggregateId) then s
    else s.(events := s.events + [Event(eventType, aggregateId, Pending, 0, s.now, s.now, None)])
  }

  function DoClaim(s: State, k: nat): State
    requires Enabled(s, Claim(k))
  {
    var p := SchedulerOf(s, k);
    var seen := p.candidates[0];
    if ClaimMatches(seen.status, s.events[seen.id], p.tick) then
      SetScheduler(SetEvent(s, seen.id, ClaimRow(s.events[seen.id], s.now)), k, Claimed(p.tick, seen, p.candidates[1..]))
    else
      SetScheduler(s, k, Looping(p.tick, p.candidates[1..]))
  }

  // ----- runs

  ghost predicate Initial(s: State)
  {
    s.events == [] && s.queue == [] && s.finished == {} && s.schedulers == map[] && s.workers == map[]
  }

  /** A scheduler's DISPATCHED write lands within thirty minutes of the tick's own clock reading. */
  predicate Timely(s: State, step: Step)
  {
    step.MarkDispatched? && SchedulerOf(s, step.k).Enqueued? ==>
      s.now < SchedulerOf(s, step.k).tick + DISPATCH_STALE_AFTER_MS
  }

  ghost predicate ValidRun(s: State, run: seq<Step>, timely: bool)
    decreases |run|
  {
    run != [] ==>
      && Enabled(s, run[0])
      && (timely ==> Timely(s, run[0]))
      && ValidRun(Do(s, run[0]), run[1..], timely)
  }

  ghost function After(s: State, run: seq<Step>): State
    decreases |run|
  {
    if run == [] || !Enabled(s, run[0]) then s else After(Do(s, run[0]), run[1..])
  }

  /** The states runs lead to; `timely` limits the runs to those whose ticks are short enough. */
  ghost predicate Reachable(s: State, timely: bool)
  {
    exists init, run :: Initial(init) && ValidRun(init, run, timely) && After(init, run) == s
  }

  // ----- invariants

  /** The row has moved past what the tick saw, in a way that tick's claim can no longer match. */
  predicate Overtaken(e: Event, tick: nat)
  {
    && !e.status.Pending?
    && (e.status.Processing? ==> tick <= e.updatedAt)
    && (e.status.Failed? || e.status.Dispatched? ==> tick < e.nextAttemptAt)
  }

  predicate SnapshotOk(events: seq<Event>, tick: nat, seen: Snapshot)
  {
    && seen.id < |events|
    && seen.attempts <= events[seen.id].attempts
    && (seen.attempts == events[seen.id].attempts || Overtaken(events[seen.id], tick))
  }

  ghost predicate SnapshotsOk(events: seq<Event>, tick: nat, list: seq<Snapshot>)
  {
    forall i :: 0 <= i < |list| ==> SnapshotOk(events, tick, list[i])
  }

  /** What a scheduler's local variables still mean for the table. */
  ghost predicate SchedulerOk(now: nat, events: seq<Event>, queue: seq<Job>, p: SchedulerState)
  {
    match p
    case Idle => true
    case Started(tick) => tick <= now
    case Looping(tick, candidates) => tick <= now && SnapshotsOk(events, tick, candidates)
    case _ =>
      && p.tick <= now
      && SnapshotsOk(events, p.tick, p.rest)
      && p.event.id < |events|
      && p.CurrentAttempt() <= events[p.event.id].attempts
      && (p.Claimed? ==> Job(p.event.id, p.CurrentAttempt()) !in queue)
  }

  /** Two schedulers about to enqueue the very same attempt. */
  predicate SameAttempt(p: SchedulerState, q: SchedulerState)
  {
    p.Claimed? && q.Claimed? && p.event.id == q.event.id && p.event.attempts == q.event.attempts
  }

  ghost predicate SchedulersOk(s: State)
  {
    && (forall k :: k in s.schedulers ==> SchedulerOk(s.now, s.events, s.queue, s.schedulers[k]))
    && (forall k, l :: k in s.schedulers && l in s.schedulers && k != l ==>
          !SameAttempt(s.schedulers[k], s.schedulers[l]))
  }

  ghost predicate QueueOk(events: seq<Event>, queue: seq<Job>)
  {
    && (forall i :: 0 <= i < |queue| ==> queue[i].id < |events| && 1 <= queue[i].attempt <= events[queue[i].id].attempts)
    && (forall i, j :: 0 <= i < j < |queue| ==> queue[i] != queue[j])
  }

  predicate EventOk(e: Event, now: nat)
  {
    && e.updatedAt <= now
    && (e.status.Pending? ==> e.attempts == 0 && e.nextAttemptAt <= e.updatedAt)
    && (!e.status.Pending? ==> e.attempts >= 1)
    && (e.status.Failed? ==> 1 <= e.attempts < MAX_ATTEMPTS && e.nextAttemptAt <= e.updatedAt + 900_000)
    && (e.status.Dispatched? ==> e.nextAttemptAt <= e.updatedAt + DISPATCH_STALE_AFTER_MS)
    && (e.status.Terminal() ==> e.processedAt == Some(e.updatedAt))
  }

  ghost predicate EventsOk(s: State)
  {
    && (forall i :: 0 <= i < |s.events| ==> EventOk(s.events[i], s.now))
    && (forall i, j :: 0 <= i < j < |s.events| ==>
          !SameDedupeKey(s.events[i], s.events[j].eventType, s.events[j].aggregateId))
  }

  ghost predicate WorkersOk(s: State)
  {
    forall w :: w in s.workers && !s.workers[w].Free? ==>
      && s.workers[w].job in s.queue
      && (s.workers[w].EffectDone? ==> s.workers[w].job in s.finished)
  }

  /** A completed row's effect ran to the end under the attempt the row now shows. */
  ghost predicate CompletionsOk(events: seq<Event>, finished: set<Job>)
  {
    forall i :: 0 <= i < |events| && events[i].status.Completed? ==> Job(i, events[i].attempts) in finished
  }

  ghost predicate Inv(s: State)
  {
    && EventsOk(s)
    && QueueOk(s.events, s.queue)
    && SchedulersOk(s)
    && WorkersOk(s)
    && CompletionsOk(s.events, s.finished)
  }

  // ----- how one row may move

  /** Every statement moves a row along this relation; nothing else touches the table. */
  ghost predicate RowMoves(now: nat, e: Event, f: Event)
  {
    && f.eventType == e.eventType
    && f.aggregateId == e.aggregateId
    && e.attempts <= f.attempts
    && (e.status.Terminal() ==> f == e)
    && (EventOk(e, now) ==> EventOk(f, now))
    && (e.attempts < f.attempts ==> f.status.Processing? && f.updatedAt == now)
    && (e.attempts == f.attempts && f != e ==>
          && e.status.InFlight()
          && (f.status.Dispatched? || f.status.Failed? ==> now < f.nextAttemptAt)
          && !f.status.Pending? && !f.status.Processing?)
  }

  lemma StatementsMoveRows(e: Event, now: nat, tick: nat, attempt: nat, terminal: bool, seen: Status)
    requires tick <= now
    ensures ClaimMatches(seen, e, tick) ==> RowMoves(now, e, ClaimRow(e, now))
    ensures now < tick + DISPATCH_STALE_AFTER_MS ==> RowMoves(now, e, DispatchRow(e, tick, now))
    ensures RowMoves(now, e, CompleteRow(e, attempt, now))
    ensures RowMoves(now, e, FailRow(e, attempt, terminal, now))
  {
    BackoffDoubles(attempt);
  }

  /** A snapshot that was sound stays sound however its row moves. */
  lemma SnapshotSurvives(events: seq<Event>, now: nat, id: nat, f: Event, tick: nat, seen: Snapshot)
    requires id < |events| && tick <= now
    requires RowMoves(now, events[id], f)
    requires SnapshotOk(events, tick, seen)
    ensures SnapshotOk(events[id := f], tick, seen)
  {}

  // ----- every step keeps the invariant

  /** Moving one row keeps everything the processes and the queue know about the table. */
  lemma RowMoveKeeps(s: State, id: nat, f: Event)
    requires Inv(s) && id < |s.events|
    requires RowMoves(s.now, s.events[id], f)
    requires f.status.Completed? ==> Job(id, f.attempts) in s.finished
    ensures Inv(SetEvent(s, id, f))
  {
    var events := s.events[id := f];
    forall k | k in s.schedulers ensures SchedulerOk(s.now, events, s.queue, s.schedulers[k]) {
      SchedulerSurvives(s, id, f, s.schedulers[k]);
    }
  }

  lemma SchedulerSurvives(s: State, id: nat, f: Event, p: SchedulerState)
    requires Inv(s) && id < |s.events|
    requires RowMoves(s.now, s.events[id], f)
    requires SchedulerOk(s.now, s.events, s.queue, p)
    ensures SchedulerOk(s.now, s.events[id := f], s.queue, p)
  {
    if !p.Idle? {
      forall seen | SnapshotOk(s.events, p.tick, seen) && p.tick <= s.now
        ensures SnapshotOk(s.events[id := f], p.tick, seen)
      {
        SnapshotSurvives(s.events, s.now, id, f, p.tick, seen);
      }
    }
  }

  lemma ClaimKeepsInv(s: State, k: nat)
    requires Inv(s) && Enabled(s, Claim(k))
    ensures Inv(Do(s, Claim(k)))
  {
    var p := SchedulerOf(s, k);
    var seen := p.candidates[0];
    var e := s.events[seen.id];
    assert SnapshotOk(s.events, p.tick, seen);
    if ClaimMatches(seen.status, e, p.tick) {
      StatementsMoveRows(e, s.now, p.tick, 0, false, seen.status);
      var moved := SetEvent(s, seen.id, ClaimRow(e, s.now));
      RowMoveKeeps(s, seen.id, ClaimRow(e, s.now));
      assert SchedulerOk(moved.now, moved.events, moved.queue, p);
      assert moved.events[seen.id].attempts == seen.attempts + 1;
      assert SchedulerOk(moved.now, moved.events, moved.queue, Claimed(p.tick, seen, p.candidates[1..]));
    }
  }

  lemma DispatchKeepsInv(s: State, k: nat)
    requires Inv(s) && Enabled(s, MarkDispatched(k)) && Timely(s, MarkDispatched(k))
    ensures Inv(Do(s, MarkDispatched(k)))
  {
    var p := SchedulerOf(s, k);
    var e := s.events[p.event.id];
    StatementsMoveRows(e, s.now, p.tick, 0, false, e.status);
    RowMoveKeeps(s, p.event.id, DispatchRow(e, p.tick, s.now));
  }

  lemma UndispatchKeepsInv(s: State, k: nat)
    requires Inv(s) && Enabled(s, MarkUndispatched(k))
    ensures Inv(Do(s, MarkUndispatched(k)))
  {
    var p := SchedulerOf(s, k);
    var e := s.events[p.event.id];
    StatementsMoveRows(e, s.now, p.tick, p.CurrentAttempt(), false, e.status);
    RowMoveKeeps(s, p.event.id, FailRow(e, p.CurrentAttempt(), false, s.now));
  }

  lemma WorkerKeepsInv(s: State, step: Step)
    requires Inv(s) && Enabled(s, step)
    requires step.MarkCompleted? || step.MarkFailed?
    ensures Inv(Do(s, step))
  {
    var p := WorkerOf(s, step.w);
    var e := s.events[p.job.id];
    if step.MarkCompleted? {
      StatementsMoveRows(e, s.now, 0, p.job.attempt, false, e.status);
      RowMoveKeeps(s, p.job.id, CompleteRow(e, p.job.attempt, s.now));
    } else {
      StatementsMoveRows(e, s.now, 0, p.job.attempt, p.terminal, e.status);
      RowMoveKeeps(s, p.job.id, FailRow(e, p.job.attempt, p.terminal, s.now));
    }
  }

  lemma EnqueueKeepsInv(s: State, k: nat)
    requires Inv(s) && Enabled(s, Enqueue(k))
    ensures Inv(Do(s, Enqueue(k)))
  {
    var p := SchedulerOf(s, k);
    var t := Do(s, Enqueue(k));
    assert SchedulerOk(s.now, s.events, s.queue, p);
    forall l | l in t.schedulers ensures SchedulerOk(t.now, t.events, t.queue, t.schedulers[l]) {
      if l != k {
        assert SchedulerOk(s.now, s.events, s.queue, s.schedulers[l]);
      }
    }
  }

  lemma CreateKeepsInv(s: State, eventType: EventType, aggregateId: nat)
    requires Inv(s)
    ensures Inv(DoCreate(s, eventType, aggregateId))
  {
    var t := DoCreate(s, eventType, aggregateId);
    forall k | k in t.schedulers ensures SchedulerOk(t.now, t.events, t.queue, t.schedulers[k]) {
      assert SchedulerOk(s.now, s.events, s.queue, s.schedulers[k]);
    }
  }

  lemma StepKeepsInv(s: State, step: Step)
    requires Inv(s) && Enabled(s, step) && Timely(s, step)
    ensures Inv(Do(s, step))
  {
    match step
    case Claim(k) => ClaimKeepsInv(s, k);
    case MarkDispatched(k) => DispatchKeepsInv(s, k);
    case MarkUndispatched(k) => UndispatchKeepsInv(s, k);
    case MarkCompleted(w) => WorkerKeepsInv(s, step);
    case MarkFailed(w) => WorkerKeepsInv(s, step);
    case Enqueue(k) => EnqueueKeepsInv(s, k);
    case CreateEvent(eventType, aggregateId) => CreateKeepsInv(s, eventType, aggregateId);
    case Advance(ms) =>
      forall k | k in s.schedulers ensures SchedulerOk(s.now + ms, s.events, s.queue, s.schedulers[k]) {
        assert SchedulerOk(s.now, s.events, s.queue, s.schedulers[k]);
      }
    case _ =>
  }

  // ----- what holds of every run

  lemma {:induction false} RunKeepsInv(s: State, run: seq<Step>)
    requires Inv(s) && ValidRun(s, run, true)
    ensures Inv(After(s, run))
    decreases |run|
  {
    if run != [] {
      StepKeepsInv(s, run[0]);
      RunKeepsInv(Do(s, run[0]), run[1..]);
    }
  }

  lemma ReachableInv(s: State)
    requires Reachable(s, true)
    ensures Inv(s)
  {
    var init, run :| Initial(init) && ValidRun(init, run, true) && After(init, run) == s;
    RunKeepsInv(init, run);
  }

  ghost predicate Distinct<T>(s: seq<T>)
  {
    forall i, j :: 0 <= i < j < |s| ==> s[i] != s[j]
  }

  /** No attempt of an event is ever dispatched twice, so job ids never repeat. */
  lemma NoAttemptIsDispatchedTwice(s: State)
    requires Reachable(s, true)
    ensures Distinct(s.queue)
    ensures forall job :: job in s.queue ==> job.id < |s.events| && 1 <= job.attempt <= s.events[job.id].attempts
  {
    ReachableInv(s);
  }

  /** The stale read is fenced: a claim that matches finds the attempt count it read earlier. */
  lemma ClaimIsFenced(s: State, k: nat)
    requires Reachable(s, true) && Enabled(s, Claim(k))
    requires Do(s, Claim(k)).schedulers[k].Claimed?
    ensures var t := Do(s, Claim(k)); var p := t.schedulers[k];
      t.events[p.event.id].attempts == p.CurrentAttempt()
  {
    ReachableInv(s);
    assert SnapshotOk(s.events, SchedulerOf(s, k).tick, SchedulerOf(s, k).candidates[0]);
  }

  /** Completion means the effect ran to the end under the attempt the row shows. */
  lemma CompletedMeansEffectRan(s: State, id: nat)
    requires Reachable(s, true)
    requires id < |s.events| && s.events[id].status.Completed?
    ensures Job(id, s.events[id].attempts) in s.finished
  {
    ReachableInv(s);
  }

  /** A row waiting for a retry has used at least one attempt and has one left. */
  lemma FailedRowsHaveAttemptsLeft(s: State, id: nat)
    requires Reachable(s, true)
    requires id < |s.events| && s.events[id].status.Failed?
    ensures 1 <= s.events[id].attempts < 8
  {
    ReachableInv(s);
  }

  /** COMPLETED and DEAD_LETTER are absorbing in every run, timely or not. */
  lemma {:induction false} TerminalRowsNeverChange(s: State, run: seq<Step>, id: nat)
    requires ValidRun(s, run, false)
    requires id < |s.events| && s.events[id].status.Terminal()
    ensures id < |After(s, run).events| && After(s, run).events[id] == s.events[id]
    decreases |run|
  {
    if run != [] {
      TerminalRowsNeverChange(Do(s, run[0]), run[1..], id);
    }
  }

  /** A job of an attempt the row has left behind never changes the row. */
  lemma OlderJobsNeverTouchTheRow(s: State, step: Step, id: nat)
    requires Enabled(s, step) && id < |s.events|
    requires step.MarkCompleted? || step.MarkFailed?
    requires WorkerOf(s, step.w).job.attempt != s.events[id].attempts
    ensures Do(s, step).events[id] == s.events[id]
  {}

  /**
    A worker may settle the row before the scheduler's own DISPATCHED write, whichever way it settles
    it: completed, dead, or failed with a retry to come. The late write then changes nothing, and the
    two orders leave the row in the same status on the same attempt.
   */
  lemma WorkerMayFinishFirst(s: State, k: nat, step: Step)
    requires Reachable(s, true) && Enabled(s, MarkDispatched(k)) && Timely(s, MarkDispatched(k))
    requires (step.MarkCompleted? || step.MarkFailed?) && Enabled(s, step)
    requires WorkerOf(s, step.w).job == Job(SchedulerOf(s, k).event.id, SchedulerOf(s, k).CurrentAttempt())
    requires Fenced(s.events[SchedulerOf(s, k).event.id], SchedulerOf(s, k).CurrentAttempt())
    ensures var id := SchedulerOf(s, k).event.id; var settled := Do(s, step);
      && Enabled(settled, MarkDispatched(k)) && Do(settled, MarkDispatched(k)).events == settled.events
      && !settled.events[id].status.InFlight()
      && Enabled(Do(s, MarkDispatched(k)), step)
      && var both := Do(Do(s, MarkDispatched(k)), step).events[id];
         both.status == settled.events[id].status && both.attempts == settled.events[id].attempts
  {
    ReachableInv(s);
    var id := SchedulerOf(s, k).event.id;
    var settled := Do(s, step);
    assert settled.events[id := settled.events[id]] == settled.events;
  }

  /** Nothing is stranded: an open row is a candidate half an hour after its last write, and stays one. */
  lemma OpenRowsFallDue(s: State, id: nat, tick: nat)
    requires Reachable(s, true) && id < |s.events| && !s.events[id].status.Terminal()
    requires tick >= s.events[id].updatedAt + DISPATCH_STALE_AFTER_MS
    ensures IsCandidate(s.events[id], tick)
  {
    ReachableInv(s);
  }

  /** From every reachable state, any idle scheduler can still bring an open row to its next attempt. */
  lemma OpenRowsCanBeClaimed(s: State, id: nat, k: nat) returns (t: State)
    requires Reachable(s, true) && id < |s.events| && !s.events[id].status.Terminal()
    requires SchedulerOf(s, k).Idle?
    ensures Reachable(t, true) && |t.events| == |s.events|
    ensures t.events[id].attempts == s.events[id].attempts + 1 && t.events[id].status.Processing?
    ensures SchedulerOf(t, k).Claimed? && t.schedulers[k].event.id == id
  {
    t := Take(s, Advance(s.events[id].updatedAt + DISPATCH_STALE_AFTER_MS), true);
    OpenRowsFallDue(t, id, t.now);
    t := Take(t, StartTick(k), true);
    t := Take(t, ReadCandidates(k, [id]), true);
    assert t.schedulers[k].candidates == [Snap(s, id)];
    t := Take(t, Claim(k), true);
  }

  // ----- how long a row is left alone

  /**
    When a row is due: waiting rows and dispatched ones from their next attempt on, a claimed one two
    minutes after its claim, a settled one never. A claim succeeds on a due row of the status read, and on no other.
   */
  lemma DueFrom(e: Event, tick: nat, seen: Status)
    ensures e.status.Pending? || e.status.Failed? || e.status.Dispatched? ==> (IsCandidate(e, tick) <==> e.nextAttemptAt <= tick)
    ensures e.status.Processing? ==> (IsCandidate(e, tick) <==> e.updatedAt + 120_000 <= tick)
    ensures e.status.Completed? || e.status.DeadLetter? ==> !IsCandidate(e, tick)
    ensures ClaimMatches(seen, e, tick)
      <==> (IsCandidate(e, tick) && (seen == e.status || (!seen.Processing? && !seen.Dispatched? && (e.status.Pending? || e.status.Failed?))))
  {}

  /**
    What the statements leave behind: a claimed row is one attempt further and hidden for two minutes;
    a dispatched one keeps its attempt and is hidden until thirty minutes after the tick; a failed one
    until its backoff is over; and what each statement does not name stays.
   */
  lemma WrittenRowsFallDue(e: Event, tick: nat, now: nat, t: nat)
    ensures ClaimRow(e, now).attempts == e.attempts + 1 && (IsCandidate(ClaimRow(e, now), t) <==> now + 120_000 <= t)
    ensures e.status.Processing? ==>
      var dispatched := DispatchRow(e, tick, now);
      && dispatched.status.Dispatched? && dispatched.attempts == e.attempts && dispatched.updatedAt == now
      && (IsCandidate(dispatched, t) <==> tick + 1_800_000 <= t)
    ensures !e.status.Processing? ==> DispatchRow(e, tick, now) == e
    ensures e.status.Processing? || e.status.Dispatched? ==>
      var failed := FailRow(e, e.attempts, false, now);
      && failed.attempts == e.attempts && failed.updatedAt == now
      && (e.attempts < 8 ==> failed.status.Failed? && (IsCandidate(failed, t) <==> now + BackoffMs(e.attempts) <= t))
      && (e.attempts >= 8 ==> failed.status.DeadLetter?)
      && FailRow(e, e.attempts, true, now).status.DeadLetter?
      && CompleteRow(e, e.attempts, now) == e.(status := Completed, processedAt := Some(now), updatedAt := now)
    ensures ClaimRow(e, now) == e.(status := Processing, attempts := e.attempts + 1, updatedAt := now)
  {}

  /** The step is a write or an enqueue of a scheduler that has claimed the row, or a write of a worker with its job. */
  predicate ActsOn(s: State, step: Step, id: nat)
  {
    match step
    case Enqueue(k) => SchedulerOf(s, k).Claimed? && SchedulerOf(s, k).event.id == id
    case MarkDispatched(k) => SchedulerOf(s, k).Enqueued? && SchedulerOf(s, k).event.id == id
    case MarkUndispatched(k) => SchedulerOf(s, k).DispatchThrew? && SchedulerOf(s, k).event.id == id
    case MarkCompleted(w) => WorkerOf(s, w).EffectDone? && WorkerOf(s, w).job.id == id
    case MarkFailed(w) => WorkerOf(s, w).EffectFailed? && WorkerOf(s, w).job.id == id
    case _ => false
  }

  ghost predicate NobodyActsOn(s: State, run: seq<Step>, id: nat)
    decreases |run|
  {
    run != [] && Enabled(s, run[0]) ==> !ActsOn(s, run[0], id) && NobodyActsOn(Do(s, run[0]), run[1..], id)
  }

  function JobsOf(queue: seq<Job>, id: nat): seq<Job>
  {
    if queue == [] then []
    else JobsOf(queue[..|queue| - 1], id) + (if queue[|queue| - 1].id == id then [queue[|queue| - 1]] else [])
  }

  lemma ClaimedRowKeepsStill(s: State, step: Step, id: nat)
    requires Inv(s) && Enabled(s, step) && !ActsOn(s, step, id)
    requires id < |s.events| && s.events[id].status.Processing? && s.now < s.events[id].updatedAt + 120_000
    ensures id < |Do(s, step).events| && Do(s, step).events[id] == s.events[id]
    ensures JobsOf(Do(s, step).queue, id) == JobsOf(s.queue, id)
  {
    if step.Claim? {
      assert SchedulerOk(s.now, s.events, s.queue, s.schedulers[step.k]);
    } else if step.Enqueue? {
      assert Do(s, step).queue[..|s.queue|] == s.queue;
    }
  }

  lemma {:induction false} TimeOnlyPasses(s: State, run: seq<Step>, timely: bool)
    requires ValidRun(s, run, timely)
    ensures s.now <= After(s, run).now
    decreases |run|
  {
    if run != [] { TimeOnlyPasses(Do(s, run[0]), run[1..], timely); }
  }

  /**
    Over a run: for two minutes after its claim a row keeps its attempt, and no job is queued for it,
    unless somebody who has claimed it, or a worker with its job, acts.
   */
  lemma ClaimedRowIsLeftAlone(s: State, run: seq<Step>, id: nat)
    requires Reachable(s, true) && ValidRun(s, run, true) && NobodyActsOn(s, run, id)
    requires id < |s.events| && s.events[id].status.Processing? && After(s, run).now < s.events[id].updatedAt + 120_000
    ensures id < |After(s, run).events| && After(s, run).events[id] == s.events[id]
    ensures JobsOf(After(s, run).queue, id) == JobsOf(s.queue, id)
  {
    ReachableInv(s);
    ClaimedRowKeepsStillInRun(s, run, id);
  }

  lemma {:induction false} ClaimedRowKeepsStillInRun(s: State, run: seq<Step>, id: nat)
    requires Inv(s) && ValidRun(s, run, true) && NobodyActsOn(s, run, id)
    requires id < |s.events| && s.events[id].status.Processing? && After(s, run).now < s.events[id].updatedAt + 120_000
    ensures id < |After(s, run).events| && After(s, run).events[id] == s.events[id]
    ensures JobsOf(After(s, run).queue, id) == JobsOf(s.queue, id)
    decreases |run|
  {
    if run != [] {
      TimeOnlyPasses(s, run, true);
      ClaimedRowKeepsStill(s, run[0], id);
      StepKeepsInv(s, run[0]);
      ClaimedRowKeepsStillInRun(Do(s, run[0]), run[1..], id);
    }
  }

  /** Reachable states are closed under enabled steps. */
  lemma Take(s: State, step: Step, timely: bool) returns (t: State)
    requires Reachable(s, timely) && Enabled(s, step) && (timely ==> Timely(s, step))
    ensures t == Do(s, step) && Reachable(t, timely)
  {
    t := Do(s, step);
    var init, run :| Initial(init) && ValidRun(init, run, timely) && After(init, run) == s;
    AppendStep(init, run, step, timely);
  }

  lemma {:induction false} AppendStep(s: State, run: seq<Step>, step: Step, timely: bool)
    requires ValidRun(s, run, timely)
    requires Enabled(After(s, run), step) && (timely ==> Timely(After(s, run), step))
    ensures ValidRun(s, run + [step], timely)
    ensures After(s, run + [step]) == Do(After(s, run), step)
    decreases |run|
  {
    if run == [] {
      assert run + [step] == [step];
      assert After(Do(s, step), []) == Do(s, step);
    } else {
      assert (run + [step])[1..] == run[1..] + [step];
      AppendStep(Do(s, run[0]), run[1..], step, timely);
    }
  }

  // ----- why the thirty-minute bound on a tick matters

  /**
    The DISPATCHED write hides a row from every tick already under way exactly when it lands
    within thirty minutes of the writer's own tick.
   */
  lemma DispatchHidesRowIffTimely(e: Event, tick: nat, now: nat)
    requires e.status.Processing? && tick <= now
    ensures (forall other: nat :: other <= now ==> !ClaimMatches(Dispatched, DispatchRow(e, tick, now), other))
      <==> now < tick + 1_800_000
  {
    assert ClaimMatches(Dispatched, DispatchRow(e, tick, now), now) <==> tick + DISPATCH_STALE_AFTER_MS <= now;
  }

  /**
    Without the bound fencing fails: scheduler 0 reads a row, sleeps thirty minutes, and its late
    DISPATCHED write makes the row match the claim scheduler 1 prepared from the same stale read.
   */
  lemma LongTickDispatchesTwice() returns (s: State)
    ensures Reachable(s, false) && s.queue == [Job(0, 1), Job(0, 2), Job(0, 2)]
  {
    var half := DISPATCH_STALE_AFTER_MS;
    var seen := Snapshot(0, Dispatched, 1);
    s := LateDispatch();
    assert [seen][1..] == [];
    s := Arrive(s, Claim(1), State(2 * half, [Row(Processing, 3, 2 * half, 2 * half)], [Job(0, 1), Job(0, 2)], {},
                                   map[0 := Looping(half, []), 1 := Claimed(2 * half, seen, [])], map[]));
    s := Arrive(s, Enqueue(1), State(2 * half, [Row(Processing, 3, 2 * half, 2 * half)], [Job(0, 1), Job(0, 2), Job(0, 2)], {},
                                     map[0 := Looping(half, []), 1 := Enqueued(2 * half, seen, [])], map[]));
  }

  lemma LateDispatch() returns (s: State)
    ensures Reachable(s, false)
    ensures var half := DISPATCH_STALE_AFTER_MS; var seen := Snapshot(0, Dispatched, 1);
      s == State(2 * half, [Row(Dispatched, 2, 2 * half, 2 * half)], [Job(0, 1), Job(0, 2)], {},
                 map[0 := Looping(half, []), 1 := Looping(2 * half, [seen])], map[])
  {
    var half := DISPATCH_STALE_AFTER_MS;
    var seen := Snapshot(0, Dispatched, 1);
    s := LateClaim();
    s := Arrive(s, Enqueue(0), State(2 * half, [Row(Processing, 2, half, 2 * half)], [Job(0, 1), Job(0, 2)], {},
                                     map[0 := Enqueued(half, seen, []), 1 := Looping(2 * half, [seen])], map[]));
    s := Arrive(s, MarkDispatched(0), State(2 * half, [Row(Dispatched, 2, 2 * half, 2 * half)], [Job(0, 1), Job(0, 2)], {},
                                            map[0 := Looping(half, []), 1 := Looping(2 * half, [seen])], map[]));
  }

  lemma LateClaim() returns (s: State)
    ensures Reachable(s, false)
    ensures var half := DISPATCH_STALE_AFTER_MS; var seen := Snapshot(0, Dispatched, 1);
      s == State(2 * half, [Row(Processing, 2, half, 2 * half)], [Job(0, 1)], {},
                 map[0 := Claimed(half, seen, []), 1 := Looping(2 * half, [seen])], map[])
  {
    var half := DISPATCH_STALE_AFTER_MS;
    var seen := Snapshot(0, Dispatched, 1);
    s := BothHaveRead();
    assert [seen][1..] == [];
    s := Arrive(s, Claim(0), State(2 * half, [Row(Processing, 2, half, 2 * half)], [Job(0, 1)], {},
                                   map[0 := Claimed(half, seen, []), 1 := Looping(2 * half, [seen])], map[]));
  }

  function Row(status: Status, attempts: nat, nextAttemptAt: nat, updatedAt: nat): Event
  {
    Event(ReferralCompletion, 7, status, attempts, nextAttemptAt, updatedAt, None)
  }

  lemma Arrive(s: State, step: Step, t: State) returns (u: State)
    requires Reachable(s, false) && Enabled(s, step) && Do(s, step) == t
    ensures u == t && Reachable(t, false)
  {
    u := Take(s, step, false);
  }

  /** Half an hour after an event was dispatched, scheduler 0 reads it; half an hour later scheduler 1 does too. */
  lemma BothHaveRead() returns (s: State)
    ensures Reachable(s, false)
    ensures var half := DISPATCH_STALE_AFTER_MS; var seen := Snapshot(0, Dispatched, 1);
      s == State(2 * half, [Row(Dispatched, 1, half, 0)], [Job(0, 1)], {},
                 map[0 := Looping(half, [seen]), 1 := Looping(2 * half, [seen])], map[])
  {
    var half := DISPATCH_STALE_AFTER_MS;
    var table := [Row(Dispatched, 1, half, 0)];
    var seen := Snapshot(0, Dispatched, 1);
    s := OneHasRead();
    s := Arrive(s, StartTick(1), State(2 * half, table, [Job(0, 1)], {},
                                       map[0 := Looping(half, [seen]), 1 := Started(2 * half)], map[]));
    assert Snaps(s, [0]) == [seen];
    s := Arrive(s, ReadCandidates(1, [0]), State(2 * half, table, [Job(0, 1)], {},
                                                 map[0 := Looping(half, [seen]), 1 := Looping(2 * half, [seen])], map[]));
  }

  lemma OneHasRead() returns (s: State)
    ensures Reachable(s, false)
    ensures var half := DISPATCH_STALE_AFTER_MS;
      s == State(2 * half, [Row(Dispatched, 1, half, 0)], [Job(0, 1)], {},
                 map[0 := Looping(half, [Snapshot(0, Dispatched, 1)])], map[])
  {
    var half := DISPATCH_STALE_AFTER_MS;
    var table := [Row(Dispatched, 1, half, 0)];
    var seen := Snapshot(0, Dispatched, 1);
    s := DispatchedOnce();
    s := Arrive(s, StartTick(0), State(half, table, [Job(0, 1)], {}, map[0 := Started(half)], map[]));
    assert Snaps(s, [0]) == [seen];
    s := Arrive(s, ReadCandidates(0, [0]), State(half, table, [Job(0, 1)], {}, map[0 := Looping(half, [seen])], map[]));
    s := Arrive(s, Advance(half), State(2 * half, table, [Job(0, 1)], {}, map[0 := Looping(half, [seen])], map[]));
  }

  /** An event dispatched at time 0, half an hour later. */
  lemma DispatchedOnce() returns (s: State)
    ensures Reachable(s, false)
    ensures s == State(DISPATCH_STALE_AFTER_MS, [Row(Dispatched, 1, DISPATCH_STALE_AFTER_MS, 0)], [Job(0, 1)], {},
                       map[0 := Idle], map[])
  {
    var half := DISPATCH_STALE_AFTER_MS;
    var seen := Snapshot(0, Pending, 0);
    s := ClaimedOnce();
    s := Arrive(s, Enqueue(0), State(0, [Row(Processing, 1, 0, 0)], [Job(0, 1)], {}, map[0 := Enqueued(0, seen, [])], map[]));
    s := Arrive(s, MarkDispatched(0), State(0, [Row(Dispatched, 1, half, 0)], [Job(0, 1)], {}, map[0 := Looping(0, [])], map[]));
    s := Arrive(s, EndTick(0), State(0, [Row(Dispatched, 1, half, 0)], [Job(0, 1)], {}, map[0 := Idle], map[]));
    s := Arrive(s, Advance(half), State(half, [Row(Dispatched, 1, half, 0)], [Job(0, 1)], {}, map[0 := Idle], map[]));
  }

  lemma ClaimedOnce() returns (s: State)
    ensures Reachable(s, false)
    ensures s == State(0, [Row(Processing, 1, 0, 0)], [], {}, map[0 := Claimed(0, Snapshot(0, Pending, 0), [])], map[])
  {
    var seen := Snapshot(0, Pending, 0);
    s := CreatedOnce();
    assert [seen][1..] == [];
    assert Snaps(s, [0]) == [seen];
    s := Arrive(s, ReadCandidates(0, [0]), State(0, [Row(Pending, 0, 0, 0)], [], {}, map[0 := Looping(0, [seen])], map[]));
    s := Arrive(s, Claim(0), State(0, [Row(Processing, 1, 0, 0)], [], {}, map[0 := Claimed(0, seen, [])], map[]));
  }

  lemma CreatedOnce() returns (s: State)
    ensures Reachable(s, false)
    ensures s == State(0, [Row(Pending, 0, 0, 0)], [], {}, map[0 := Started(0)], map[])
  {
    var table := [Row(Pending, 0, 0, 0)];
    s := State(0, [], [], {}, map[], map[]);
    assert ValidRun(s, [], false) && After(s, []) == s;
    s := Arrive(s, CreateEvent(ReferralCompletion, 7), State(0, table, [], {}, map[], map[]));
    s := Arrive(s, StartTick(0), State(0, table, [], {}, map[0 := Started(0)], map[]));
  }
}
