/**
  Idempotent booking creation: claims on an idempotency key, the sixty-second lease and its theft,
  the creation transaction, the provider call, the checkpoint of its result, completion and replay.

  Any number of requests interleave, one SQL statement or transaction at a time, and any of them
  may crash. Ids are never reused. `bookings` also records, for each committed booking, which
  idempotency row it was attached to and the response first built for it; `retired` are the rows
  that retention cleanup deleted after a booking had been attached; `calls` logs the calls made to
  the payment provider.
 */
module BookingIdempotency {
  import opened Foundations
  import opened BookingResponse

  const LEASE_MS: nat := 60 * 1000
  const RETENTION_MS: nat := 24 * 60 * 60 * 1000
  const MAX_CLAIM_ATTEMPTS: nat := 3

  datatype Key = Key(customerScope: string, idempotencyKey: string)

  datatype RowState = Processing | Completed

  datatype Row = Row(
    key: Key,
    requestHash: string,
    state: RowState,
    bookingId: Option<Id>,
    response: Option<Json>,
    updatedAt: nat)

  datatype Booking = Booking(
    paymentIntent: Option<string>,
    ended: bool,
    row: Id,
    key: Key,
    original: Option<Response>)
  {
    /** JavaScript's truth test on `paymentIntent`. */
    predicate HasPaymentIntent() { paymentIntent.Some? && paymentIntent.value != "" }
  }

  datatype Request = Request(key: Key, requestHash: string)

  datatype Outcome =
    | Created(response: Response)
    | Replayed(response: Response)
    | InProgress
    | KeyReused
    | Failed
    | Crashed

  /** Where one request stands; the data are its local variables. */
  datatype Actor =
    | Idle
    | Inserting(req: Request, attempt: nat)
    | Reading(req: Request, attempt: nat)
    | Deciding(req: Request, attempt: nat, id: Id, seen: Row)
    | Finalizing(id: Id, seen: Row)
    | TakingOver(id: Id, seen: Row)
    | Stealing(req: Request, attempt: nat, id: Id, seen: Row)
    | Creating(req: Request, id: Id)
    | Resuming(id: Id, bookingId: Id)
    | Paying(id: Id, bookingId: Id, owner: bool)
    | Charged(id: Id, bookingId: Id, response: Response, owner: bool)
    | Checkpointed(id: Id, bookingId: Id, response: Response, owner: bool)
    | Compensating(id: Id, bookingId: Id, owner: bool)
    | Releasing(id: Id)
    | Done(outcome: Outcome)

  datatype State = State(
    now: nat,
    rows: map<Id, Row>,
    used: set<Id>,
    retired: set<Id>,
    bookings: map<Id, Booking>,
    calls: seq<Id>,
    actors: map<nat, Actor>)

  datatype Step =
    | Advance(ms: nat)
    | Arrive(a: nat, req: Request)
    | Insert(a: nat, id: Id)
    | Read(a: nat, id: Id)
    | ReadNothing(a: nat)
    | Decide(a: nat)
    | Finalize(a: nat)
    | TakeOver(a: nat)
    | Steal(a: nat)
    | CreationFails(a: nat)
    | Commit(a: nat, bookingId: Id)
    | ReadBooking(a: nat)
    | Charge(a: nat, response: Response)
    | ChargeFails(a: nat)
    | MarkUnpaid(a: nat)
    | Checkpoint(a: nat)
    | CheckpointThrows(a: nat)
    | Complete(a: nat)
    | Release(a: nat)
    | Crash(a: nat)
    | CleanUp
    | EndBooking(bookingId: Id)
    | PayThroughApi(bookingId: Id, reference: string)

  function ActorOf(s: State, a: nat): Actor { if a in s.actors then s.actors[a] else Idle }

  function SetActor(s: State, a: nat, p: Actor): State { s.(actors := s.actors[a := p]) }

  function SetRow(s: State, id: Id, row: Row): State { s.(rows := s.rows[id := row]) }

  predicate HasKey(rows: map<Id, Row>, key: Key)
  {
    exists id :: id in rows && rows[id].key == key
  }

  /** After an error in the creation path the claim is released; a resumed request just fails. */
  function AfterFailure(id: Id, owner: bool): Actor { if owner then Releasing(id) else Done(Failed) }

  /** `attachBooking`: only an unattached claim that still exists can take a booking. */
  predicate CanAttach(s: State, id: Id)
  {
    id in s.rows && s.rows[id].state.Processing? && s.rows[id].bookingId.None?
  }

  predicate CanCheckpoint(s: State, id: Id, bookingId: Id)
  {
    id in s.rows && s.rows[id].state.Processing? && s.rows[id].bookingId == Some(bookingId)
  }

  /** The rows one run of `cleanupExpiredRecords` deletes. */
  predicate Expired(s: State, id: Id)
    requires id in s.rows
  {
    var row := s.rows[id];
    && row.updatedAt + RETENTION_MS < s.now
    && (row.state.Completed?
        || row.bookingId.None?
        || (row.bookingId.value in s.bookings && s.bookings[row.bookingId.value].ended))
  }

  predicate Enabled(c: Codec, s: State, step: Step)
  {
    match step
    case Advance(ms) => true
    case Arrive(a, req) => ActorOf(s, a).Idle?
    case Insert(a, id) => ActorOf(s, a).Inserting? && id !in s.used
    case Read(a, id) => ActorOf(s, a).Reading? && id in s.rows && s.rows[id].key == ActorOf(s, a).req.key
    case ReadNothing(a) => ActorOf(s, a).Reading? && !HasKey(s.rows, ActorOf(s, a).req.key)
    case Decide(a) => ActorOf(s, a).Deciding?
    case Finalize(a) => ActorOf(s, a).Finalizing? && ActorOf(s, a).seen.response.Some?
    case TakeOver(a) => ActorOf(s, a).TakingOver? && ActorOf(s, a).seen.bookingId.Some?
    case Steal(a) => ActorOf(s, a).Stealing?
    case CreationFails(a) => ActorOf(s, a).Creating?
    case Commit(a, bookingId) => ActorOf(s, a).Creating? && bookingId !in s.bookings && bookingId != ""
    case ReadBooking(a) => ActorOf(s, a).Resuming?
    case Charge(a, response) =>
      && ActorOf(s, a).Paying?
      && response.bookingId == ActorOf(s, a).bookingId
      && response.txRef != ""
      && c.genuine(response)
    case ChargeFails(a) => ActorOf(s, a).Paying?
    case MarkUnpaid(a) => ActorOf(s, a).Compensating?
    case Checkpoint(a) => ActorOf(s, a).Charged? && ActorOf(s, a).bookingId in s.bookings
    case CheckpointThrows(a) => ActorOf(s, a).Charged?
    case Complete(a) => ActorOf(s, a).Checkpointed?
    case Release(a) => ActorOf(s, a).Releasing?
    case Crash(a) => true
    case CleanUp => true
    case EndBooking(bookingId) => bookingId in s.bookings
    case PayThroughApi(bookingId, reference) =>
      bookingId in s.bookings && s.bookings[bookingId].paymentIntent.None? && reference != ""
  }

  function Do(c: Codec, s: State, step: Step): State
    requires Enabled(c, s, step)
  {
    match step
    case Advance(ms) => s.(now := s.now + ms)
    case Arrive(a, req) => SetActor(s, a, Inserting(req, 1))
    case Insert(a, id) => DoInsert(s, a, id)
    case Read(a, id) =>
      var p := ActorOf(s, a);
      SetActor(s, a, Deciding(p.req, p.attempt, id, s.rows[id]))
    case ReadNothing(a) =>
      var p := ActorOf(s, a);
      SetActor(s, a, Inserting(p.req, p.attempt + 1))
    case Decide(a) => SetActor(s, a, Decision(c, s.now, ActorOf(s, a)))
    case Finalize(a) => DoFinalize(c, s, a)
    case TakeOver(a) => DoTakeOver(s, a)
    case Steal(a) => DoSteal(s, a)
    case CreationFails(a) => SetActor(s, a, Releasing(ActorOf(s, a).id))
    case Commit(a, bookingId) => DoCommit(s, a, bookingId)
    case ReadBooking(a) => DoReadBooking(s, a)
    case Charge(a, response) =>
      var p := ActorOf(s, a);
      SetActor(s.(calls := s.calls + [p.bookingId]), a, Charged(p.id, p.bookingId, response, p.owner))
    case ChargeFails(a) =>
      var p := ActorOf(s, a);
      SetActor(s.(calls := s.calls + [p.bookingId]), a, Compensating(p.id, p.bookingId, p.owner))
    case MarkUnpaid(a) => SetActor(s, a, AfterFailure(ActorOf(s, a).id, ActorOf(s, a).owner))
    case Checkpoint(a) => DoCheckpoint(c, s, a)
    case CheckpointThrows(a) => SetActor(s, a, AfterFailure(ActorOf(s, a).id, ActorOf(s, a).owner))
    case Complete(a) => DoComplete(s, a)
    case Release(a) => DoRelease(s, a)
    case Crash(a) => SetActor(s, a, Done(Crashed))
    case CleanUp => DoCleanUp(s)
    case EndBooking(bookingId) => s.(bookings := s.bookings[bookingId := s.bookings[bookingId].(ended := true)])
    case PayThroughApi(bookingId, reference) =>
      s.(calls := s.calls + [bookingId],
         bookings := s.bookings[bookingId := s.bookings[bookingId].(paymentIntent := Some(reference))])
  }

  function DoInsert(s: State, a: nat, id: Id): State
    requires ActorOf(s, a).Inserting?
  {
    var p := ActorOf(s, a);
    if p.attempt > MAX_CLAIM_ATTEMPTS then SetActor(s, a, Done(InProgress))
    else if HasKey(s.rows, p.req.key) then SetActor(s, a, Reading(p.req, p.attempt))
    else SetActor(SetRow(s, id, Row(p.req.key, p.req.requestHash, Processing, None, None, s.now)).(used := s.used + {id}),
                  a, Creating(p.req, id))
  }

  /** What the row read a moment ago calls for; no statement is sent yet. */
  function Decision(c: Codec, now: nat, p: Actor): Actor
    requires p.Deciding?
  {
    var row := p.seen;
    if row.requestHash != p.req.requestHash then Done(KeyReused)
    else if row.state.Completed? then Replay(c, row.response)
    else if row.response.Some? then Finalizing(p.id, row)
    else if now < row.updatedAt + LEASE_MS then Done(InProgress)
    else if row.bookingId.Some? then TakingOver(p.id, row)
    else Stealing(p.req, p.attempt, p.id, row)
  }

  function Replay(c: Codec, stored: Option<Json>): Actor
  {
    if stored.Some? && c.parse(stored.value).Ok? then Done(Replayed(c.parse(stored.value).value)) else Done(Failed)
  }

  function DoFinalize(c: Codec, s: State, a: nat): State
    requires ActorOf(s, a).Finalizing? && ActorOf(s, a).seen.response.Some?
  {
    var p := ActorOf(s, a);
    if p.id in s.rows && s.rows[p.id].state.Processing? && s.rows[p.id].bookingId.Some? then
      SetActor(SetRow(s, p.id, s.rows[p.id].(state := RowState.Completed, updatedAt := s.now)), a, Replay(c, p.seen.response))
    else SetActor(s, a, Done(InProgress))
  }

  function DoTakeOver(s: State, a: nat): State
    requires ActorOf(s, a).TakingOver? && ActorOf(s, a).seen.bookingId.Some?
  {
    var p := ActorOf(s, a);
    if p.id in s.rows && s.rows[p.id].state.Processing? && s.rows[p.id].updatedAt == p.seen.updatedAt then
      SetActor(SetRow(s, p.id, s.rows[p.id].(updatedAt := s.now)), a, Resuming(p.id, p.seen.bookingId.value))
    else SetActor(s, a, Done(InProgress))
  }

  function DoSteal(s: State, a: nat): State
    requires ActorOf(s, a).Stealing?
  {
    var p := ActorOf(s, a);
    if CanAttach(s, p.id) && s.rows[p.id].updatedAt == p.seen.updatedAt then
      SetActor(s.(rows := s.rows - {p.id}), a, Inserting(p.req, p.attempt + 1))
    else SetActor(s, a, Done(InProgress))
  }

  /** The creation transaction: the booking, its payment marker and the attachment commit together or not at all. */
  function DoCommit(s: State, a: nat, bookingId: Id): State
    requires ActorOf(s, a).Creating?
  {
    var p := ActorOf(s, a);
    if CanAttach(s, p.id) then
      SetActor(
        SetRow(s, p.id, s.rows[p.id].(bookingId := Some(bookingId), updatedAt := s.now)).(
          bookings := s.bookings[bookingId := Booking(Some(bookingId), false, p.id, p.req.key, None)]),
        a, Paying(p.id, bookingId, true))
    else SetActor(s, a, Releasing(p.id))
  }

  function DoReadBooking(s: State, a: nat): State
    requires ActorOf(s, a).Resuming?
  {
    var p := ActorOf(s, a);
    if p.bookingId !in s.bookings then SetActor(s, a, Done(Failed))
    else if s.bookings[p.bookingId].HasPaymentIntent() then SetActor(s, a, Done(InProgress))
    else SetActor(s, a, Paying(p.id, p.bookingId, false))
  }

  function DoCheckpoint(c: Codec, s: State, a: nat): State
    requires ActorOf(s, a).Charged? && ActorOf(s, a).bookingId in s.bookings
  {
    var p := ActorOf(s, a);
    if CanCheckpoint(s, p.id, p.bookingId) then
      SetActor(
        SetRow(s, p.id, s.rows[p.id].(response := Some(c.persist(p.response)), updatedAt := s.now)).(
          bookings := s.bookings[p.bookingId := s.bookings[p.bookingId].(
            paymentIntent := Some(p.response.txRef), original := Some(p.response))]),
        a, Checkpointed(p.id, p.bookingId, p.response, p.owner))
    else SetActor(s, a, AfterFailure(p.id, p.owner))
  }

  function DoComplete(s: State, a: nat): State
    requires ActorOf(s, a).Checkpointed?
  {
    var p := ActorOf(s, a);
    if p.id in s.rows && s.rows[p.id].state.Processing? then
      SetActor(SetRow(s, p.id, s.rows[p.id].(state := RowState.Completed, updatedAt := s.now)), a, Done(Created(p.response)))
    else if p.id in s.rows && s.rows[p.id].response.Some? then SetActor(s, a, Done(Created(p.response)))
    else SetActor(s, a, AfterFailure(p.id, p.owner))
  }

  function DoRelease(s: State, a: nat): State
    requires ActorOf(s, a).Releasing?
  {
    var p := ActorOf(s, a);
    if CanAttach(s, p.id) then SetActor(s.(rows := s.rows - {p.id}), a, Done(Failed))
    else SetActor(s, a, Done(Failed))
  }

  function DoCleanUp(s: State): State
  {
    var expired := set id | id in s.rows && Expired(s, id);
    s.(rows := s.rows - expired, retired := s.retired + (set id | id in expired && s.rows[id].bookingId.Some?))
  }

  // ----- runs

  ghost predicate Initial(s: State)
  {
    && s.rows == map[] && s.used == {} && s.retired == {} && s.bookings == map[]
    && s.calls == [] && s.actors == map[]
  }

  ghost predicate ValidRun(c: Codec, s: State, run: seq<Step>)
    decreases |run|
  {
    run != [] ==> Enabled(c, s, run[0]) && ValidRun(c, Do(c, s, run[0]), run[1..])
  }

  ghost function After(c: Codec, s: State, run: seq<Step>): State
    decreases |run|
  {
    if run == [] || !Enabled(c, s, run[0]) then s else After(c, Do(c, s, run[0]), run[1..])
  }

  ghost predicate Reachable(c: Codec, s: State)
  {
    exists init, run :: Initial(init) && ValidRun(c, init, run) && After(c, init, run) == s
  }

  // ----- invariants

  /** The booking with this id has this response as its original. */
  predicate OriginalIs(s: State, bookingId: Id, stored: Json, c: Codec)
  {
    && bookingId in s.bookings
    && s.bookings[bookingId].original.Some?
    && stored == c.persist(s.bookings[bookingId].original.value)
  }

  /** A version of a row, current or remembered, whose stored fields belong together. */
  predicate VersionOk(c: Codec, s: State, row: Row)
  {
    && (row.state.Completed? ==> row.bookingId.Some? && row.response.Some?)
    && (row.bookingId.Some? ==> row.bookingId.value in s.bookings)
    && (row.response.Some? ==> row.bookingId.Some? && OriginalIs(s, row.bookingId.value, row.response.value, c))
  }

  ghost predicate RowsOk(c: Codec, s: State)
  {
    && (forall id :: id in s.rows ==> id in s.used && id !in s.retired && VersionOk(c, s, s.rows[id]))
    && (forall id, other :: id in s.rows && other in s.rows && id != other ==> s.rows[id].key != s.rows[other].key)
    && (forall id :: id in s.rows && s.rows[id].bookingId.Some? ==> s.bookings[s.rows[id].bookingId.value].row == id)
  }

  ghost predicate BookingOk(c: Codec, s: State, b: Id)
    requires b in s.bookings
  {
    var booking := s.bookings[b];
    && booking.HasPaymentIntent()
    && (booking.row in s.rows || booking.row in s.retired)
    && (booking.row in s.rows ==> s.rows[booking.row].bookingId == Some(b) && s.rows[booking.row].key == booking.key)
    && (booking.original.Some? ==> c.genuine(booking.original.value) && booking.original.value.bookingId == b)
    && (booking.original.Some? && booking.row in s.rows ==> s.rows[booking.row].response.Some?)
  }

  ghost predicate BookingsOk(c: Codec, s: State)
  {
    && s.retired <= s.used
    && (forall b :: b in s.bookings ==> BookingOk(c, s, b))
    && (forall b, d :: b in s.bookings && d in s.bookings && b != d ==> s.bookings[b].row != s.bookings[d].row)
  }

  ghost predicate CallsOk(s: State)
  {
    && (forall i, j :: 0 <= i < j < |s.calls| ==> s.calls[i] != s.calls[j])
    && (forall i :: 0 <= i < |s.calls| ==> s.calls[i] in s.bookings)
    && (forall b :: b in s.bookings && s.bookings[b].original.Some? ==> b in s.calls)
  }

  ghost predicate ActorOk(c: Codec, s: State, p: Actor)
  {
    match p
    case Deciding(req, attempt, id, seen) => VersionOk(c, s, seen) && SeenOk(s, id, seen)
    case Finalizing(id, seen) => VersionOk(c, s, seen) && SeenOk(s, id, seen) && seen.response.Some?
    case TakingOver(id, seen) => VersionOk(c, s, seen)
    case Creating(req, id) => id in s.used && (id in s.rows ==> s.rows[id].key == req.key)
    case Paying(id, b, owner) => owner && b in s.bookings && s.bookings[b].row == id && b !in s.calls
    case Charged(id, b, r, owner) =>
      && b in s.bookings && s.bookings[b].row == id && s.bookings[b].original.None?
      && r.bookingId == b && r.txRef != "" && c.genuine(r) && b in s.calls
    case Checkpointed(id, b, r, owner) =>
      b in s.bookings && s.bookings[b].row == id && s.bookings[b].original == Some(r)
    case Resuming(id, b) => b in s.bookings
    case Done(outcome) =>
      outcome.Created? || outcome.Replayed? ==>
        outcome.response.bookingId in s.bookings && s.bookings[outcome.response.bookingId].original == Some(outcome.response)
    case _ => true
  }

  /** A stored response is never taken back. */
  predicate SeenOk(s: State, id: Id, seen: Row)
  {
    id in s.used && (seen.response.Some? && id in s.rows ==> s.rows[id].response == seen.response)
  }

  predicate SettlesSameBooking(p: Actor, q: Actor)
  {
    (p.Paying? || p.Charged?) && (q.Paying? || q.Charged?) && p.bookingId == q.bookingId
  }

  ghost predicate ActorsOk(c: Codec, s: State)
  {
    && (forall a :: a in s.actors ==> ActorOk(c, s, s.actors[a]))
    && (forall a, b :: a in s.actors && b in s.actors && a != b ==> !SettlesSameBooking(s.actors[a], s.actors[b]))
  }

  ghost predicate Inv(c: Codec, s: State)
  {
    RowsOk(c, s) && BookingsOk(c, s) && CallsOk(s) && ActorsOk(c, s)
  }

  // ----- every step keeps the invariant

  /** A step of one actor that leaves the tables alone. */
  lemma LocalStepKeepsInv(c: Codec, s: State, a: nat, p: Actor)
    requires Inv(c, s) && ActorOk(c, s, p)
    requires p.Paying? || p.Charged? ==> SettlesSameBooking(ActorOf(s, a), p)
    ensures Inv(c, SetActor(s, a, p))
  {
    var t := SetActor(s, a, p);
    forall b | b in t.bookings ensures BookingOk(c, t, b) { assert BookingOk(c, s, b); }
    forall b | b in t.actors ensures ActorOk(c, t, t.actors[b]) {
      if b != a { assert ActorOk(c, s, s.actors[b]); }
    }
  }

  /** The tables evolve without undoing what any actor relies on. */
  ghost predicate Grows(c: Codec, s: State, t: State)
  {
    && s.used <= t.used
    && s.bookings.Keys <= t.bookings.Keys
    && (forall b :: b in s.bookings ==>
          && t.bookings[b].row == s.bookings[b].row
          && (s.bookings[b].original.Some? ==> t.bookings[b].original == s.bookings[b].original))
    && (forall id :: id in t.rows && id in s.used ==>
          && id in s.rows
          && t.rows[id].key == s.rows[id].key
          && (s.rows[id].response.Some? ==> t.rows[id].response == s.rows[id].response))
  }

  /** Other actors' facts survive, given that the provider log and the originals they await are untouched. */
  lemma ActorSurvives(c: Codec, s: State, t: State, p: Actor)
    requires ActorOk(c, s, p) && Grows(c, s, t)
    requires p.Paying? ==> p.bookingId !in t.calls
    requires p.Charged? ==> p.bookingId in t.calls && (p.bookingId in t.bookings ==> t.bookings[p.bookingId].original.None?)
    ensures ActorOk(c, t, p)
  {}

  lemma OthersSurvive(c: Codec, s: State, t: State, a: nat)
    requires Inv(c, s) && Grows(c, s, t)
    requires a in t.actors && t.actors == s.actors[a := t.actors[a]]
    requires ActorOk(c, t, t.actors[a])
    requires forall b :: b in t.calls && b !in s.calls ==>
      forall i :: i in s.actors && i != a && s.actors[i].Paying? ==> s.actors[i].bookingId != b
    requires s.calls <= t.calls
    requires forall b :: b in s.bookings && t.bookings[b].original != s.bookings[b].original ==>
      forall i :: i in s.actors && i != a && s.actors[i].Charged? ==> s.actors[i].bookingId != b
    requires forall i :: i in s.actors && i != a ==> !SettlesSameBooking(s.actors[i], t.actors[a])
    ensures ActorsOk(c, t)
  {
    forall i | i in t.actors ensures ActorOk(c, t, t.actors[i]) {
      if i != a {
        assert ActorOk(c, s, s.actors[i]);
        ActorSurvives(c, s, t, s.actors[i]);
      }
    }
  }

  lemma InsertKeepsInv(c: Codec, s: State, a: nat, id: Id)
    requires Inv(c, s) && Enabled(c, s, Insert(a, id))
    ensures Inv(c, DoInsert(s, a, id))
  {
    var p := ActorOf(s, a);
    var t := DoInsert(s, a, id);
    if p.attempt > MAX_CLAIM_ATTEMPTS || HasKey(s.rows, p.req.key) {
      LocalStepKeepsInv(c, s, a, t.actors[a]);
    } else {
      var row := Row(p.req.key, p.req.requestHash, Processing, None, None, s.now);
      NewRowKeepsTables(c, s, t, id, row);
      OthersSurvive(c, s, t, a);
    }
  }

  lemma NewRowKeepsTables(c: Codec, s: State, t: State, id: Id, row: Row)
    requires Inv(c, s) && id !in s.used && !HasKey(s.rows, row.key)
    requires row.state.Processing? && row.bookingId.None? && row.response.None?
    requires t.rows == s.rows[id := row] && t.used == s.used + {id}
    requires t.bookings == s.bookings && t.retired == s.retired && t.calls == s.calls
    ensures RowsOk(c, t) && BookingsOk(c, t) && CallsOk(t)
  {
    forall i | i in t.rows ensures VersionOk(c, t, t.rows[i]) {
      if i != id { assert VersionOk(c, s, s.rows[i]); }
    }
    forall b | b in t.bookings ensures BookingOk(c, t, b) { assert BookingOk(c, s, b); }
  }

  /** A row changes in its state, its clock, or not at all; its booking and response stay. */
  lemma TouchKeepsInv(c: Codec, s: State, a: nat, id: Id, state: RowState, p: Actor)
    requires Inv(c, s) && id in s.rows
    requires state.Completed? ==> s.rows[id].response.Some?
    requires ActorOk(c, s, p) && !p.Paying? && !p.Charged?
    ensures Inv(c, SetActor(SetRow(s, id, s.rows[id].(state := state, updatedAt := s.now)), a, p))
  {
    var t := SetActor(SetRow(s, id, s.rows[id].(state := state, updatedAt := s.now)), a, p);
    TouchKeepsTables(c, s, t, id, state);
    ActorSurvives(c, s, t, p);
    OthersSurvive(c, s, t, a);
  }

  lemma TouchKeepsTables(c: Codec, s: State, t: State, id: Id, state: RowState)
    requires Inv(c, s) && id in s.rows && (state.Completed? ==> s.rows[id].response.Some?)
    requires t.rows == s.rows[id := s.rows[id].(state := state, updatedAt := s.now)]
    requires t.bookings == s.bookings && t.used == s.used && t.retired == s.retired && t.calls == s.calls
    ensures RowsOk(c, t) && BookingsOk(c, t) && CallsOk(t) && Grows(c, s, t)
  {
    forall i | i in t.rows ensures VersionOk(c, t, t.rows[i]) { assert VersionOk(c, s, s.rows[i]); }
    forall b | b in t.bookings ensures BookingOk(c, t, b) { assert BookingOk(c, s, b); }
  }

  /** A row without a booking disappears. */
  lemma DropKeepsInv(c: Codec, s: State, a: nat, id: Id, p: Actor)
    requires Inv(c, s) && CanAttach(s, id)
    requires ActorOk(c, s, p) && !p.Paying? && !p.Charged?
    ensures Inv(c, SetActor(s.(rows := s.rows - {id}), a, p))
  {
    var t := SetActor(s.(rows := s.rows - {id}), a, p);
    assert forall i :: i in t.rows ==> t.rows[i] == s.rows[i] && VersionOk(c, s, s.rows[i]);
    forall b | b in t.bookings ensures BookingOk(c, t, b) { assert BookingOk(c, s, b); }
    ActorSurvives(c, s, t, p);
    OthersSurvive(c, s, t, a);
  }

  lemma CommitKeepsInv(c: Codec, s: State, a: nat, bookingId: Id)
    requires Inv(c, s) && Enabled(c, s, Commit(a, bookingId))
    ensures Inv(c, DoCommit(s, a, bookingId))
  {
    var p := ActorOf(s, a);
    assert ActorOk(c, s, p);
    if CanAttach(s, p.id) {
      var t := DoCommit(s, a, bookingId);
      CommitKeepsRows(c, s, t, p, bookingId);
      CommitKeepsBookings(c, s, t, p, bookingId);
      CommitGrows(c, s, t, p, bookingId);
      CommitKeepsActors(c, s, t, a, bookingId);
    } else {
      LocalStepKeepsInv(c, s, a, Releasing(p.id));
    }
  }

  lemma CommitKeepsActors(c: Codec, s: State, t: State, a: nat, bookingId: Id)
    requires ActorsOk(c, s)
    requires ActorOf(s, a).Creating? && bookingId !in s.bookings && bookingId !in t.calls
    requires t.actors == s.actors[a := Paying(ActorOf(s, a).id, bookingId, true)]
    requires t.calls == s.calls && t.used == s.used && Grows(c, s, t)
    requires t.bookings == s.bookings[bookingId := Booking(Some(bookingId), false, ActorOf(s, a).id, ActorOf(s, a).req.key, None)]
    requires forall i :: i in s.calls ==> i in s.bookings
    ensures ActorsOk(c, t)
  {
    forall i | i in t.actors ensures ActorOk(c, t, t.actors[i]) {
      if i != a {
        assert ActorOk(c, s, s.actors[i]);
        ActorSurvives(c, s, t, s.actors[i]);
      }
    }
    forall i | i in s.actors && i != a ensures !SettlesSameBooking(s.actors[i], t.actors[a]) {
      assert ActorOk(c, s, s.actors[i]);
    }
  }

  /** The tables before and after a creation that found its claim. */
  ghost predicate Commits(c: Codec, s: State, t: State, p: Actor, bookingId: Id)
  {
    && p.Creating? && CanAttach(s, p.id) && ActorOk(c, s, p) && bookingId !in s.bookings && bookingId != ""
    && t.rows == s.rows[p.id := s.rows[p.id].(bookingId := Some(bookingId), updatedAt := s.now)]
    && t.bookings == s.bookings[bookingId := Booking(Some(bookingId), false, p.id, p.req.key, None)]
    && t.used == s.used && t.retired == s.retired && t.calls == s.calls
  }

  lemma CommitKeepsRows(c: Codec, s: State, t: State, p: Actor, bookingId: Id)
    requires Inv(c, s) && Commits(c, s, t, p, bookingId)
    ensures RowsOk(c, t)
  {
    forall i | i in t.rows ensures VersionOk(c, t, t.rows[i]) { assert VersionOk(c, s, s.rows[i]); }
  }

  lemma CommitKeepsBookings(c: Codec, s: State, t: State, p: Actor, bookingId: Id)
    requires Inv(c, s) && Commits(c, s, t, p, bookingId)
    ensures BookingsOk(c, t)
  {
    forall b | b in t.bookings ensures BookingOk(c, t, b) {
      if b != bookingId { assert BookingOk(c, s, b); }
    }
    forall b | b in s.bookings ensures s.bookings[b].row != p.id { assert BookingOk(c, s, b); }
  }

  lemma CommitGrows(c: Codec, s: State, t: State, p: Actor, bookingId: Id)
    requires Inv(c, s) && Commits(c, s, t, p, bookingId)
    ensures CallsOk(t) && bookingId !in t.calls && Grows(c, s, t)
  {}

  lemma ChargeKeepsInv(c: Codec, s: State, a: nat, step: Step)
    requires Inv(c, s) && Enabled(c, s, step) && (step.Charge? || step.ChargeFails?) && step.a == a
    ensures Inv(c, Do(c, s, step))
  {
    var p := ActorOf(s, a);
    var t := Do(c, s, step);
    assert ActorOk(c, s, p);
    CallKeepsTables(c, s, t, p.bookingId);
    OthersSurvive(c, s, t, a);
  }

  /** A call to the provider about a booking that has not been asked about. */
  lemma CallKeepsTables(c: Codec, s: State, t: State, b: Id)
    requires Inv(c, s) && b in s.bookings && b !in s.calls && t.calls == s.calls + [b]
    requires t.rows == s.rows && t.bookings == s.bookings && t.used == s.used && t.retired == s.retired
    ensures RowsOk(c, t) && BookingsOk(c, t) && CallsOk(t) && Grows(c, s, t)
    ensures s.bookings[b].original.None?
  {
    forall i | i in t.rows ensures VersionOk(c, t, t.rows[i]) { assert VersionOk(c, s, s.rows[i]); }
    forall x | x in t.bookings ensures BookingOk(c, t, x) { assert BookingOk(c, s, x); }
  }

  lemma CheckpointKeepsInv(c: Codec, s: State, a: nat)
    requires Inv(c, s) && Enabled(c, s, Checkpoint(a))
    ensures Inv(c, DoCheckpoint(c, s, a))
  {
    var p := ActorOf(s, a);
    var t := DoCheckpoint(c, s, a);
    assert ActorOk(c, s, p);
    if !CanCheckpoint(s, p.id, p.bookingId) {
      LocalStepKeepsInv(c, s, a, AfterFailure(p.id, p.owner));
      return;
    }
    CheckpointKeepsRows(c, s, t, p);
    CheckpointKeepsBookings(c, s, t, p);
    CheckpointGrows(c, s, t, p);
    OthersSurvive(c, s, t, a);
  }

  /** The tables before and after a checkpoint that found its claim. */
  ghost predicate Checkpoints(c: Codec, s: State, t: State, p: Actor)
  {
    && p.Charged? && ActorOk(c, s, p) && CanCheckpoint(s, p.id, p.bookingId)
    && t.rows == s.rows[p.id := s.rows[p.id].(response := Some(c.persist(p.response)), updatedAt := s.now)]
    && t.bookings == s.bookings[p.bookingId := s.bookings[p.bookingId].(
         paymentIntent := Some(p.response.txRef), original := Some(p.response))]
    && t.used == s.used && t.retired == s.retired && t.calls == s.calls
  }

  lemma CheckpointKeepsRows(c: Codec, s: State, t: State, p: Actor)
    requires Inv(c, s) && Checkpoints(c, s, t, p)
    ensures RowsOk(c, t)
  {
    forall i | i in t.rows ensures VersionOk(c, t, t.rows[i]) {
      assert VersionOk(c, s, s.rows[i]);
    }
  }

  lemma CheckpointKeepsBookings(c: Codec, s: State, t: State, p: Actor)
    requires Inv(c, s) && Checkpoints(c, s, t, p)
    ensures BookingsOk(c, t) && CallsOk(t)
  {
    forall b | b in t.bookings ensures BookingOk(c, t, b) { assert BookingOk(c, s, b); }
  }

  lemma CheckpointGrows(c: Codec, s: State, t: State, p: Actor)
    requires RowsOk(c, s) && Checkpoints(c, s, t, p)
    ensures Grows(c, s, t)
  {
    assert VersionOk(c, s, s.rows[p.id]);
  }

  lemma ReadBookingKeepsInv(c: Codec, s: State, a: nat)
    requires Inv(c, s) && Enabled(c, s, ReadBooking(a))
    ensures Inv(c, DoReadBooking(s, a))
    ensures DoReadBooking(s, a).actors[a] == Done(InProgress)
  {
    var p := ActorOf(s, a);
    assert ActorOk(c, s, p);
    assert BookingOk(c, s, p.bookingId);
    LocalStepKeepsInv(c, s, a, Done(InProgress));
  }

  lemma ReplayOk(c: Codec, s: State, seen: Row)
    requires Faithful(c) && Inv(c, s) && VersionOk(c, s, seen) && seen.response.Some?
    ensures ActorOk(c, s, Replay(c, seen.response)) && Replay(c, seen.response).outcome.Replayed?
    ensures Replay(c, seen.response) == Done(Replayed(s.bookings[seen.bookingId.value].original.value))
  {
    assert BookingOk(c, s, seen.bookingId.value);
  }

  lemma DecideKeepsInv(c: Codec, s: State, a: nat)
    requires Faithful(c) && Inv(c, s) && Enabled(c, s, Decide(a))
    ensures Inv(c, Do(c, s, Decide(a)))
  {
    var p := ActorOf(s, a);
    assert ActorOk(c, s, p);
    if p.seen.state.Completed? { ReplayOk(c, s, p.seen); }
    LocalStepKeepsInv(c, s, a, Decision(c, s.now, p));
  }

  lemma FinalizeKeepsInv(c: Codec, s: State, a: nat)
    requires Faithful(c) && Inv(c, s) && Enabled(c, s, Finalize(a))
    ensures Inv(c, DoFinalize(c, s, a))
  {
    var p := ActorOf(s, a);
    assert ActorOk(c, s, p);
    ReplayOk(c, s, p.seen);
    if p.id in s.rows && s.rows[p.id].state.Processing? && s.rows[p.id].bookingId.Some? {
      TouchKeepsInv(c, s, a, p.id, RowState.Completed, Replay(c, p.seen.response));
    } else {
      LocalStepKeepsInv(c, s, a, Done(InProgress));
    }
  }

  lemma TakeOverKeepsInv(c: Codec, s: State, a: nat)
    requires Inv(c, s) && Enabled(c, s, TakeOver(a))
    ensures Inv(c, DoTakeOver(s, a))
  {
    var p := ActorOf(s, a);
    assert ActorOk(c, s, p);
    if p.id in s.rows && s.rows[p.id].state.Processing? && s.rows[p.id].updatedAt == p.seen.updatedAt {
      TouchKeepsInv(c, s, a, p.id, Processing, Resuming(p.id, p.seen.bookingId.value));
    } else {
      LocalStepKeepsInv(c, s, a, Done(InProgress));
    }
  }

  lemma CompleteKeepsInv(c: Codec, s: State, a: nat)
    requires Inv(c, s) && Enabled(c, s, Complete(a))
    ensures Inv(c, DoComplete(s, a))
  {
    var p := ActorOf(s, a);
    assert ActorOk(c, s, p);
    assert BookingOk(c, s, p.bookingId);
    if p.id in s.rows && s.rows[p.id].state.Processing? {
      assert s.rows[p.id].response.Some?;
      TouchKeepsInv(c, s, a, p.id, RowState.Completed, Done(Created(p.response)));
    } else {
      LocalStepKeepsInv(c, s, a, DoComplete(s, a).actors[a]);
    }
  }

  lemma CleanUpKeepsInv(c: Codec, s: State)
    requires Inv(c, s)
    ensures Inv(c, DoCleanUp(s))
  {
    var t := DoCleanUp(s);
    assert forall i :: i in t.rows ==> t.rows[i] == s.rows[i] && VersionOk(c, s, s.rows[i]);
    forall b | b in t.bookings ensures BookingOk(c, t, b) { assert BookingOk(c, s, b); }
    forall i | i in t.actors ensures ActorOk(c, t, t.actors[i]) {
      assert ActorOk(c, s, s.actors[i]);
      ActorSurvives(c, s, t, s.actors[i]);
    }
  }

  lemma EndBookingKeepsInv(c: Codec, s: State, bookingId: Id)
    requires Inv(c, s) && bookingId in s.bookings
    ensures Inv(c, Do(c, s, EndBooking(bookingId)))
  {
    var t := Do(c, s, EndBooking(bookingId));
    assert forall i :: i in t.rows ==> VersionOk(c, s, s.rows[i]);
    forall b | b in t.bookings ensures BookingOk(c, t, b) { assert BookingOk(c, s, b); }
    forall i | i in t.actors ensures ActorOk(c, t, t.actors[i]) {
      assert ActorOk(c, s, s.actors[i]);
      ActorSurvives(c, s, t, s.actors[i]);
    }
  }

  lemma AdvanceKeepsInv(c: Codec, s: State, ms: nat)
    requires Inv(c, s)
    ensures Inv(c, s.(now := s.now + ms))
  {
    var t := s.(now := s.now + ms);
    assert forall i :: i in t.rows ==> VersionOk(c, s, s.rows[i]);
    forall b | b in t.bookings ensures BookingOk(c, t, b) { assert BookingOk(c, s, b); }
    forall i | i in t.actors ensures ActorOk(c, t, t.actors[i]) {
      assert ActorOk(c, s, s.actors[i]);
      ActorSurvives(c, s, t, s.actors[i]);
    }
  }

  lemma DeletionKeepsInv(c: Codec, s: State, step: Step)
    requires Inv(c, s) && Enabled(c, s, step) && (step.Steal? || step.Release?)
    ensures Inv(c, Do(c, s, step))
  {
    var p := ActorOf(s, step.a);
    var t := Do(c, s, step);
    if t.rows == s.rows {
      LocalStepKeepsInv(c, s, step.a, t.actors[step.a]);
    } else {
      DropKeepsInv(c, s, step.a, p.id, t.actors[step.a]);
    }
  }

  /** The payment API serves only a booking without a marker, and no booking is without one. */
  lemma MarkerBlocksApi(c: Codec, s: State, b: Id, reference: string)
    requires Inv(c, s)
    ensures !Enabled(c, s, PayThroughApi(b, reference))
  {
    if b in s.bookings { assert BookingOk(c, s, b); }
  }

  lemma StepKeepsInv(c: Codec, s: State, step: Step)
    requires Faithful(c) && Inv(c, s) && Enabled(c, s, step)
    ensures Inv(c, Do(c, s, step))
  {
    if step.Advance? || step.CleanUp? || step.EndBooking? || step.PayThroughApi? {
      WorldStepsKeepInv(c, s, step);
    } else if step.Insert? {
      InsertKeepsInv(c, s, step.a, step.id);
    } else if step.Commit? {
      CommitKeepsInv(c, s, step.a, step.bookingId);
    } else if step.Charge? || step.ChargeFails? || step.Checkpoint? || step.Complete? {
      PaymentStepsKeepInv(c, s, step);
    } else {
      ClaimStepsKeepInv(c, s, step);
    }
  }

  lemma WorldStepsKeepInv(c: Codec, s: State, step: Step)
    requires Inv(c, s) && Enabled(c, s, step)
    requires step.Advance? || step.CleanUp? || step.EndBooking? || step.PayThroughApi?
    ensures Inv(c, Do(c, s, step))
  {
    match step
    case Advance(ms) => AdvanceKeepsInv(c, s, ms);
    case CleanUp => CleanUpKeepsInv(c, s);
    case EndBooking(bookingId) => EndBookingKeepsInv(c, s, bookingId);
    case PayThroughApi(bookingId, reference) => MarkerBlocksApi(c, s, bookingId, reference);
  }

  lemma PaymentStepsKeepInv(c: Codec, s: State, step: Step)
    requires Inv(c, s) && Enabled(c, s, step)
    requires step.Charge? || step.ChargeFails? || step.Checkpoint? || step.Complete?
    ensures Inv(c, Do(c, s, step))
  {
    match step
    case Charge(a, response) => ChargeKeepsInv(c, s, a, step);
    case ChargeFails(a) => ChargeKeepsInv(c, s, a, step);
    case Checkpoint(a) => CheckpointKeepsInv(c, s, a);
    case Complete(a) => CompleteKeepsInv(c, s, a);
  }

  lemma ClaimStepsKeepInv(c: Codec, s: State, step: Step)
    requires Faithful(c) && Inv(c, s) && Enabled(c, s, step)
    requires step.Decide? || step.Finalize? || step.TakeOver? || step.Steal? || step.Release? || step.ReadBooking?
      || step.Arrive? || step.Read? || step.ReadNothing? || step.CreationFails? || step.MarkUnpaid?
      || step.CheckpointThrows? || step.Crash?
    ensures Inv(c, Do(c, s, step))
  {
    match step
    case Decide(a) => DecideKeepsInv(c, s, a);
    case Finalize(a) => FinalizeKeepsInv(c, s, a);
    case TakeOver(a) => TakeOverKeepsInv(c, s, a);
    case Steal(a) => DeletionKeepsInv(c, s, step);
    case Release(a) => DeletionKeepsInv(c, s, step);
    case ReadBooking(a) => ReadBookingKeepsInv(c, s, a);
    case _ => LocalStepsKeepInv(c, s, step);
  }

  lemma LocalStepsKeepInv(c: Codec, s: State, step: Step)
    requires Inv(c, s) && Enabled(c, s, step)
    requires step.Arrive? || step.Read? || step.ReadNothing? || step.CreationFails? || step.MarkUnpaid?
      || step.CheckpointThrows? || step.Crash?
    ensures Inv(c, Do(c, s, step))
  {
    if step.Read? { assert VersionOk(c, s, s.rows[step.id]); }
    LocalStepKeepsInv(c, s, step.a, Do(c, s, step).actors[step.a]);
  }

  lemma {:induction false} RunKeepsInv(c: Codec, s: State, run: seq<Step>)
    requires Faithful(c) && Inv(c, s) && ValidRun(c, s, run)
    ensures Inv(c, After(c, s, run))
    decreases |run|
  {
    if run != [] {
      StepKeepsInv(c, s, run[0]);
      RunKeepsInv(c, Do(c, s, run[0]), run[1..]);
    }
  }

  lemma ReachableInv(c: Codec, s: State)
    requires Faithful(c) && Reachable(c, s)
    ensures Inv(c, s)
  {
    var init, run :| Initial(init) && ValidRun(c, init, run) && After(c, init, run) == s;
    RunKeepsInv(c, init, run);
  }
}
