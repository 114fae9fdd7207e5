/**
  The code of booking creation on top of the idempotency table: the claim with its retries, the
  attachment inside the creation transaction, the checkpoint, completion, release and cleanup, and
  the request handler that strings them together.

  The ghost field `state` is the state of the `BookingIdempotency` machine that the tables belong
  to. Other requests may be anywhere in their own work when a method starts; a method's own
  statements are then carried out without a break, and each is proved to be a step of the machine.
 */
module BookingCreationRuntime {
  import opened Foundations
  import opened BookingResponse
  import opened BookingIdempotency
  import opened BookingIdempotencyTheorems

  datatype Claim =
    | Claimed(id: Id)
    | Replay(response: Response)
    | Resume(id: Id, bookingId: Id)

  datatype CreationError =
    | BookingRequestInProgress
    | IdempotencyKeyReused
    | BookingCreationFailed
    | PaymentIntentFailed
    | BookingPaymentSyncFailed

  datatype Checkout = Checkout(paymentIntentId: string, checkoutUrl: string)

  /** What the world outside decides while one request is handled. */
  datatype Plan = Plan(
    newRowId: Id,
    newBookingId: Id,
    creationFails: bool,
    provider: Option<Checkout>,
    syncThrows: bool,
    totalAmount: real,
    reservationExpiresAt: string,
    isGuest: bool)

  /** The unique index on (customerScope, idempotencyKey). */
  ghost predicate Indexed(rows: map<Id, Row>, index: map<Key, Id>)
  {
    && (forall id :: id in rows ==> rows[id].key in index && index[rows[id].key] == id)
    && (forall key :: key in index ==> index[key] in rows && rows[index[key]].key == key)
  }

  lemma IndexFindsKey(rows: map<Id, Row>, index: map<Key, Id>, key: Key)
    requires Indexed(rows, index)
    ensures HasKey(rows, key) <==> key in index
  {}

  lemma Follow(c: Codec, s: State, step: Step)
    requires Reachable(c, s) && Enabled(c, s, step)
    ensures Reachable(c, Do(c, s, step))
  {
    var init, run :| Initial(init) && ValidRun(c, init, run) && After(c, init, run) == s;
    AppendStep(c, init, run, step);
  }

  lemma {:induction false} AppendStep(c: Codec, s: State, run: seq<Step>, step: Step)
    requires ValidRun(c, s, run) && Enabled(c, After(c, s, run), step)
    ensures ValidRun(c, s, run + [step]) && After(c, s, run + [step]) == Do(c, After(c, s, run), step)
    decreases |run|
  {
    if run == [] {
      assert run + [step] == [step];
      assert [step][1..] == [];
    } else {
      assert (run + [step])[1..] == run[1..] + [step];
      AppendStep(c, Do(c, s, run[0]), run[1..], step);
    }
  }

  /** The claim a request holds, and where that leaves it in the machine. */
  function ActorFor(req: Request, claim: Result<Claim, CreationError>): Actor
  {
    match claim
    case Ok(Claimed(id)) => Creating(req, id)
    case Ok(Replay(response)) => Done(Replayed(response))
    case Ok(Resume(id, bookingId)) => Resuming(id, bookingId)
    case Err(BookingRequestInProgress) => Done(InProgress)
    case Err(IdempotencyKeyReused) => Done(KeyReused)
    case Err(_) => Done(Failed)
  }

  predicate LeaseExpired(row: Row, now: nat) { row.updatedAt + LEASE_MS <= now }

  predicate Stealable(row: Row, req: Request, now: nat)
  {
    && row.requestHash == req.requestHash && row.state.Processing?
    && row.response.None? && row.bookingId.None? && LeaseExpired(row, now)
  }

  /** The key is free, or its row is a claim of a minute ago or longer that never got its booking or response. */
  predicate MayClaim(rows: map<Id, Row>, index: map<Key, Id>, req: Request, now: nat)
    requires req.key in index ==> index[req.key] in rows
  {
    req.key in index ==> Stealable(rows[index[req.key]], req, now)
  }

  /** The rows of all other keys, where the key may be claimed. */
  function Remaining(rows: map<Id, Row>, index: map<Key, Id>, req: Request): map<Id, Row>
  {
    if req.key in index then rows - {index[req.key]} else rows
  }

  /** `parseResponse` on a stored response. */
  function Replayable(stored: Option<Json>, p: Platform): Result<Claim, CreationError>
  {
    if stored.Some? && Parse(stored.value, p).Ok? then Ok(Replay(Parse(stored.value, p).value))
    else Err(BookingCreationFailed)
  }

  /** What a claim answers when the key already has a row that may not be stolen. */
  function AnswerFor(row: Row, id: Id, req: Request, now: nat, p: Platform): Result<Claim, CreationError>
  {
    if row.requestHash != req.requestHash then Err(IdempotencyKeyReused)
    else if row.state.Completed? || row.response.Some? then Replayable(row.response, p)
    else if !LeaseExpired(row, now) || row.bookingId.None? then Err(BookingRequestInProgress)
    else Ok(Resume(id, row.bookingId.value))
  }

  /** What that claim leaves in the row. */
  function ClaimedRow(row: Row, req: Request, now: nat): Row
  {
    if row.requestHash != req.requestHash || row.state.Completed? then row
    else if row.response.Some? then row.(state := RowState.Completed, updatedAt := now)
    else if LeaseExpired(row, now) && row.bookingId.Some? then row.(updatedAt := now)
    else row
  }

  function NewRow(req: Request, now: nat): Row { Row(req.key, req.requestHash, Processing, None, None, now) }

  /** In a reachable state a parsed replay always succeeds, so a replay never reports a corrupt row. */
  lemma StoredResponsesParse(p: Platform, s: State, id: Id)
    requires Reachable(StoredForm(p), s) && id in s.rows && (s.rows[id].response.Some? || s.rows[id].state.Completed?)
    ensures s.rows[id].bookingId.Some? && s.rows[id].response.Some? && Parse(s.rows[id].response.value, p).Ok?
    ensures var r := Parse(s.rows[id].response.value, p).value;
      r.bookingId in s.bookings && s.bookings[r.bookingId].original == Some(r)
  {
    var c := StoredForm(p);
    StoredFormIsFaithful(p);
    ReachableInv(c, s);
    assert VersionOk(c, s, s.rows[id]);
    assert BookingOk(c, s, s.rows[id].bookingId.value);
  }

  /** Every row and booking another request relies on is left alone. */
  ghost predicate OthersUntouched(s: State, t: State, a: nat)
  {
    forall b :: b != a ==> ActorOf(t, b) == ActorOf(s, b)
  }

  lemma RowsAreUsed(p: Platform, s: State)
    requires Reachable(StoredForm(p), s)
    ensures s.rows.Keys <= s.used
  {
    StoredFormIsFaithful(p);
    ReachableInv(StoredForm(p), s);
  }

  lemma ChargedBookingExists(p: Platform, s: State, a: nat)
    requires Reachable(StoredForm(p), s) && ActorOf(s, a).Charged?
    ensures ActorOf(s, a).bookingId in s.bookings
  {
    StoredFormIsFaithful(p);
    ReachableInv(StoredForm(p), s);
    assert ActorOk(StoredForm(p), s, ActorOf(s, a));
  }

  function ExpiredRows(rows: map<Id, Row>, bookings: map<Id, Booking>, now: nat): set<Id>
  {
    set id |
      && id in rows
      && rows[id].updatedAt + RETENTION_MS < now
      && (rows[id].state.Completed?
          || rows[id].bookingId.None?
          || (rows[id].bookingId.value in bookings && bookings[rows[id].bookingId.value].ended))
  }

  lemma CleanUpStep(c: Codec, s: State)
    requires Reachable(c, s)
    ensures Reachable(c, DoCleanUp(s))
    ensures DoCleanUp(s).rows == s.rows - ExpiredRows(s.rows, s.bookings, s.now)
  {
    Follow(c, s, CleanUp);
    assert ExpiredRows(s.rows, s.bookings, s.now) == set id | id in s.rows && Expired(s, id);
  }

  lemma KeepIndexed(rows: map<Id, Row>, index: map<Key, Id>, gone: set<Id>)
    requires Indexed(rows, index)
    ensures Indexed(rows - gone, map key | key in index && index[key] !in gone :: index[key])
  {}

  lemma ResumedBookingHasMarker(p: Platform, s: State, a: nat)
    requires Reachable(StoredForm(p), s) && ActorOf(s, a).Resuming?
    ensures ActorOf(s, a).bookingId in s.bookings && DoReadBooking(s, a) == SetActor(s, a, Done(InProgress))
  {
    StoredFormIsFaithful(p);
    ReachableInv(StoredForm(p), s);
    assert ActorOk(StoredForm(p), s, ActorOf(s, a));
    assert BookingOk(StoredForm(p), s, ActorOf(s, a).bookingId);
  }

  lemma AnswerIsOriginal(p: Platform, s: State, a: nat)
    requires Reachable(StoredForm(p), s)
    requires ActorOf(s, a).Done? && (ActorOf(s, a).outcome.Created? || ActorOf(s, a).outcome.Replayed?)
    ensures var r := ActorOf(s, a).outcome.response;
      r.bookingId in s.bookings && s.bookings[r.bookingId].original == Some(r)
  {
    StoredFormIsFaithful(p);
    AnswersAreTheOriginal(StoredForm(p), s, a);
  }

  // ----- the claim's statements, as steps of the machine

  lemma CreateStep(c: Codec, s: State, a: nat, req: Request, attempt: nat, id: Id)
    requires Reachable(c, s) && ActorOf(s, a) == Inserting(req, attempt) && id !in s.used
    ensures attempt > 3 ==> Reachable(c, SetActor(s, a, Done(InProgress)))
    ensures attempt <= 3 && HasKey(s.rows, req.key) ==> Reachable(c, SetActor(s, a, Reading(req, attempt)))
    ensures attempt <= 3 && !HasKey(s.rows, req.key) ==>
      Reachable(c, SetActor(SetRow(s, id, NewRow(req, s.now)).(used := s.used + {id}), a, Creating(req, id)))
  {
    Follow(c, s, Insert(a, id));
  }

  lemma ReadStep(c: Codec, s: State, a: nat, req: Request, attempt: nat, id: Id)
    requires Reachable(c, s) && ActorOf(s, a) == Reading(req, attempt)
    requires id in s.rows && s.rows[id].key == req.key
    ensures Reachable(c, SetActor(s, a, Decision(c, s.now, Deciding(req, attempt, id, s.rows[id]))))
  {
    var t := SetActor(s, a, Deciding(req, attempt, id, s.rows[id]));
    Follow(c, s, Read(a, id));
    Follow(c, t, Decide(a));
    assert t.actors[a := Decision(c, s.now, t.actors[a])] == s.actors[a := Decision(c, s.now, t.actors[a])];
  }

  class BookingCreationIdempotencyService {
    const platform: Platform
    var clock: nat
    var rows: map<Id, Row>
    var index: map<Key, Id>
    var bookings: map<Id, Booking>
    var calls: seq<Id>
    ghost var state: State

    /** The tables are those of a state some run leads to, so everything proved of runs applies to them. */
    ghost predicate Valid()
      reads this
    {
      && Reachable(StoredForm(platform), state)
      && state.now == clock && state.rows == rows && state.bookings == bookings && state.calls == calls
      && Indexed(rows, index)
    }

    constructor (platform: Platform)
      ensures Valid() && this.platform == platform
      ensures rows == map[] && bookings == map[] && calls == [] && state.actors == map[]
    {
      this.platform := platform;
      clock, rows, index, bookings, calls := 0, map[], map[], map[], [];
      state := State(0, map[], {}, {}, map[], [], map[]);
      new;
      assert ValidRun(StoredForm(platform), state, []) && After(StoredForm(platform), state, []) == state;
    }

    method Wait(ms: nat)
      requires Valid()
      modifies this
      ensures Valid() && clock == old(clock) + ms
      ensures rows == old(rows) && bookings == old(bookings) && calls == old(calls) && index == old(index)
      ensures state == old(state).(now := clock)
    {
      Follow(StoredForm(platform), state, Advance(ms));
      clock := clock + ms;
      state := state.(now := clock);
    }

    /** A request arrives, by its handler's first statement. */
    ghost method Begin(a: nat, req: Request)
      requires Valid() && ActorOf(state, a).Idle?
      modifies `state
      ensures Valid() && state == SetActor(old(state), a, Inserting(req, 1))
    {
      Follow(StoredForm(platform), state, Arrive(a, req));
      state := SetActor(state, a, Inserting(req, 1));
    }

    method Claim(a: nat, req: Request, newRowId: Id) returns (claim: Result<Claim, CreationError>)
      requires Valid() && ActorOf(state, a).Idle? && newRowId !in state.used
      modifies this
      ensures Valid() && OthersUntouched(old(state), state, a) && ActorOf(state, a) == ActorFor(req, claim)
      ensures clock == old(clock) && bookings == old(bookings) && calls == old(calls)
      ensures MayClaim(old(rows), old(index), req, clock) ==>
        claim == Ok(Claimed(newRowId)) && rows == Remaining(old(rows), old(index), req)[newRowId := NewRow(req, clock)]
      ensures !MayClaim(old(rows), old(index), req, clock) ==>
        var id := old(index)[req.key];
        && claim == AnswerFor(old(rows)[id], id, req, clock, platform)
        && rows == old(rows)[id := ClaimedRow(old(rows)[id], req, clock)]
    {
      Begin(a, req);
      claim := ClaimWithAttempt(a, req, 1, newRowId);
    }

    /** The insert, which the unique index refuses when the key has a row; no fourth attempt is made. */
    method Create(a: nat, req: Request, attempt: nat, newRowId: Id) returns (created: bool)
      requires Valid() && ActorOf(state, a) == Inserting(req, attempt) && newRowId !in state.used
      modifies this
      ensures Valid() && OthersUntouched(old(state), state, a)
      ensures clock == old(clock) && bookings == old(bookings) && calls == old(calls)
      ensures created <==> attempt <= 3 && req.key !in old(index)
      ensures rows == if created then old(rows)[newRowId := NewRow(req, clock)] else old(rows)
      ensures index == if created then old(index)[req.key := newRowId] else old(index)
      ensures state.used == if created then old(state).used + {newRowId} else old(state).used
      ensures ActorOf(state, a) ==
        if created then Creating(req, newRowId)
        else if attempt > 3 then Done(InProgress)
        else Reading(req, attempt)
    {
      CreateStep(StoredForm(platform), state, a, req, attempt, newRowId);
      IndexFindsKey(rows, index, req.key);
      created := attempt <= MAX_CLAIM_ATTEMPTS && req.key !in index;
      if created {
        assert newRowId !in rows by { RowsAreUsed(platform, state); }
        rows := rows[newRowId := NewRow(req, clock)];
        index := index[req.key := newRowId];
        state := SetActor(SetRow(state, newRowId, NewRow(req, clock)).(used := state.used + {newRowId}), a, Creating(req, newRowId));
      } else {
        state := SetActor(state, a, if attempt > MAX_CLAIM_ATTEMPTS then Done(InProgress) else Reading(req, attempt));
      }
    }

    /** The row of the key as it is now, and what its reader will do about it. */
    method FindUnique(a: nat, req: Request, attempt: nat) returns (id: Id, existing: Row)
      requires Valid() && ActorOf(state, a) == Reading(req, attempt) && req.key in index
      modifies `state
      ensures Valid() && OthersUntouched(old(state), state, a) && state.used == old(state).used
      ensures id == index[req.key] && existing == rows[id]
      ensures ActorOf(state, a) == Decision(StoredForm(platform), clock, Deciding(req, attempt, id, existing))
    {
      id := index[req.key];
      existing := rows[id];
      ReadStep(StoredForm(platform), state, a, req, attempt, id);
      state := SetActor(state, a, Decision(StoredForm(platform), clock, Deciding(req, attempt, id, existing)));
    }

    /** The version of the row that was read may be out of date: the update is conditional. */
    method FinalizeCheckpointedResponse(a: nat, id: Id, seen: Row) returns (claim: Result<Claim, CreationError>)
      requires Valid() && ActorOf(state, a) == Finalizing(id, seen) && seen.response.Some?
      modifies this
      ensures Valid() && OthersUntouched(old(state), state, a) && state.used == old(state).used
      ensures clock == old(clock) && bookings == old(bookings) && calls == old(calls) && index == old(index)
      ensures
        if id in old(rows) && old(rows)[id].state.Processing? && old(rows)[id].bookingId.Some? then
          && claim == Replayable(seen.response, platform)
          && rows == old(rows)[id := old(rows)[id].(state := RowState.Completed, updatedAt := clock)]
        else claim == Err(BookingRequestInProgress) && rows == old(rows)
      ensures claim.Ok? ==> claim.value.Replay? && ActorOf(state, a) == Done(Replayed(claim.value.response))
      ensures claim.Err? ==> ActorOf(state, a) == Done(if claim.error.BookingRequestInProgress? then InProgress else Failed)
    {
      Follow(StoredForm(platform), state, Finalize(a));
      state := DoFinalize(StoredForm(platform), state, a);
      if id in rows && rows[id].state.Processing? && rows[id].bookingId.Some? {
        rows := rows[id := rows[id].(state := RowState.Completed, updatedAt := clock)];
        claim := Replayable(seen.response, platform);
      } else {
        claim := Err(BookingRequestInProgress);
      }
    }

    method TakeOverClaim(a: nat, id: Id, seen: Row) returns (claim: Result<Claim, CreationError>)
      requires Valid() && ActorOf(state, a) == TakingOver(id, seen) && seen.bookingId.Some?
      modifies this
      ensures Valid() && OthersUntouched(old(state), state, a) && state.used == old(state).used
      ensures clock == old(clock) && bookings == old(bookings) && calls == old(calls) && index == old(index)
      ensures
        if id in old(rows) && old(rows)[id].state.Processing? && old(rows)[id].updatedAt == seen.updatedAt then
          && claim == Ok(Resume(id, seen.bookingId.value))
          && rows == old(rows)[id := old(rows)[id].(updatedAt := clock)]
          && ActorOf(state, a) == Resuming(id, seen.bookingId.value)
        else
          claim == Err(BookingRequestInProgress) && rows == old(rows) && ActorOf(state, a) == Done(InProgress)
    {
      Follow(StoredForm(platform), state, TakeOver(a));
      state := DoTakeOver(state, a);
      if id in rows && rows[id].state.Processing? && rows[id].updatedAt == seen.updatedAt {
        rows := rows[id := rows[id].(updatedAt := clock)];
        claim := Ok(Resume(id, seen.bookingId.value));
      } else {
        claim := Err(BookingRequestInProgress);
      }
    }

    /** The theft of an expired lease: it succeeds only on the very version that was read. */
    method StealClaim(a: nat, req: Request, attempt: nat, id: Id, seen: Row) returns (released: bool)
      requires Valid() && ActorOf(state, a) == Stealing(req, attempt, id, seen)
      modifies this
      ensures Valid() && OthersUntouched(old(state), state, a) && state.used == old(state).used
      ensures clock == old(clock) && bookings == old(bookings) && calls == old(calls)
      ensures released <==>
        && id in old(rows) && old(rows)[id].bookingId.None? && old(rows)[id].state.Processing?
        && old(rows)[id].updatedAt == seen.updatedAt
      ensures rows == if released then old(rows) - {id} else old(rows)
      ensures index == if released then old(index) - {old(rows)[id].key} else old(index)
      ensures ActorOf(state, a) == if released then Inserting(req, attempt + 1) else Done(InProgress)
    {
      Follow(StoredForm(platform), state, Steal(a));
      state := DoSteal(state, a);
      released := id in rows && rows[id].bookingId.None? && rows[id].state.Processing? && rows[id].updatedAt == seen.updatedAt;
      if released {
        index := index - {rows[id].key};
        rows := rows - {id};
      }
    }

    /** The answers that leave the row in place, from the version just read. */
    method AnswerExisting(a: nat, req: Request, attempt: nat, id: Id, existing: Row) returns (claim: Result<Claim, CreationError>)
      requires Valid() && id in rows && rows[id] == existing && !Stealable(existing, req, clock)
      requires ActorOf(state, a) == Decision(StoredForm(platform), clock, Deciding(req, attempt, id, existing))
      modifies this
      ensures Valid() && OthersUntouched(old(state), state, a) && state.used == old(state).used
      ensures clock == old(clock) && bookings == old(bookings) && calls == old(calls) && index == old(index)
      ensures claim == AnswerFor(existing, id, req, clock, platform)
      ensures rows == old(rows)[id := ClaimedRow(existing, req, clock)]
      ensures ActorOf(state, a) == ActorFor(req, claim)
    {
      assert rows == rows[id := existing];
      if existing.requestHash != req.requestHash {
        claim := Err(IdempotencyKeyReused);
      } else if existing.state.Completed? {
        claim := Replayable(existing.response, platform);
      } else if existing.response.Some? {
        StoredResponsesParse(platform, state, id);
        claim := FinalizeCheckpointedResponse(a, id, existing);
      } else if !LeaseExpired(existing, clock) {
        claim := Err(BookingRequestInProgress);
      } else {
        claim := TakeOverClaim(a, id, existing);
      }
    }

    method ClaimWithAttempt(a: nat, req: Request, attempt: nat, newRowId: Id) returns (claim: Result<Claim, CreationError>)
      requires Valid() && ActorOf(state, a) == Inserting(req, attempt) && newRowId !in state.used
      modifies this
      ensures Valid() && OthersUntouched(old(state), state, a) && ActorOf(state, a) == ActorFor(req, claim)
      ensures clock == old(clock) && bookings == old(bookings) && calls == old(calls)
      ensures attempt > 3 ==> claim == Err(BookingRequestInProgress) && rows == old(rows)
      ensures attempt <= 3 && MayClaim(old(rows), old(index), req, clock) ==>
        if attempt == 3 && req.key in old(index) then claim == Err(BookingRequestInProgress) && rows == Remaining(old(rows), old(index), req)
        else claim == Ok(Claimed(newRowId)) && rows == Remaining(old(rows), old(index), req)[newRowId := NewRow(req, clock)]
      ensures attempt <= 3 && !MayClaim(old(rows), old(index), req, clock) ==>
        var id := old(index)[req.key];
        && claim == AnswerFor(old(rows)[id], id, req, clock, platform)
        && rows == old(rows)[id := ClaimedRow(old(rows)[id], req, clock)]
      decreases MAX_CLAIM_ATTEMPTS + 1 - attempt, 1
    {
      var created := Create(a, req, attempt, newRowId);
      if created {
        claim := Ok(Claimed(newRowId));
      } else if attempt > MAX_CLAIM_ATTEMPTS {
        claim := Err(BookingRequestInProgress);
      } else {
        claim := ClaimExisting(a, req, attempt, newRowId);
      }
    }

    /** The key had a row: it is read, and stolen from or answered from. */
    method ClaimExisting(a: nat, req: Request, attempt: nat, newRowId: Id) returns (claim: Result<Claim, CreationError>)
      requires Valid() && ActorOf(state, a) == Reading(req, attempt) && newRowId !in state.used
      requires attempt <= MAX_CLAIM_ATTEMPTS && req.key in index
      modifies this
      ensures Valid() && OthersUntouched(old(state), state, a) && ActorOf(state, a) == ActorFor(req, claim)
      ensures clock == old(clock) && bookings == old(bookings) && calls == old(calls)
      ensures MayClaim(old(rows), old(index), req, clock) ==>
        if attempt == 3 then claim == Err(BookingRequestInProgress) && rows == Remaining(old(rows), old(index), req)
        else claim == Ok(Claimed(newRowId)) && rows == Remaining(old(rows), old(index), req)[newRowId := NewRow(req, clock)]
      ensures !MayClaim(old(rows), old(index), req, clock) ==>
        var id := old(index)[req.key];
        && claim == AnswerFor(old(rows)[id], id, req, clock, platform)
        && rows == old(rows)[id := ClaimedRow(old(rows)[id], req, clock)]
      decreases MAX_CLAIM_ATTEMPTS + 1 - attempt, 0
    {
      var id, existing := FindUnique(a, req, attempt);
      if Stealable(existing, req, clock) {
        var released := StealClaim(a, req, attempt, id, existing);
        if released {
          claim := ClaimWithAttempt(a, req, attempt + 1, newRowId);
        } else {
          claim := Err(BookingRequestInProgress);
        }
      } else {
        claim := AnswerExisting(a, req, attempt, id, existing);
      }
    }

    /**
      The creation transaction: the new booking with its payment marker, and `attachBooking`. When
      the claim is gone nothing is committed.
     */
    method AttachBooking(a: nat, req: Request, id: Id, bookingId: Id) returns (attached: bool)
      requires Valid() && ActorOf(state, a) == Creating(req, id)
      requires bookingId !in bookings && bookingId != ""
      modifies this
      ensures Valid() && OthersUntouched(old(state), state, a)
      ensures clock == old(clock) && calls == old(calls) && index == old(index)
      ensures attached <==> id in old(rows) && old(rows)[id].state.Processing? && old(rows)[id].bookingId.None?
      ensures rows ==
        if attached then old(rows)[id := old(rows)[id].(bookingId := Some(bookingId), updatedAt := clock)] else old(rows)
      ensures bookings ==
        if attached then old(bookings)[bookingId := Booking(Some(bookingId), false, id, req.key, None)] else old(bookings)
      ensures ActorOf(state, a) == if attached then Paying(id, bookingId, true) else Releasing(id)
    {
      Follow(StoredForm(platform), state, Commit(a, bookingId));
      state := DoCommit(state, a, bookingId);
      attached := id in rows && rows[id].state.Processing? && rows[id].bookingId.None?;
      if attached {
        bookings := bookings[bookingId := Booking(Some(bookingId), false, id, req.key, None)];
        rows := rows[id := rows[id].(bookingId := Some(bookingId), updatedAt := clock)];
      }
    }

    /** The provider's answer and the booking's new reference are stored together or not at all. */
    method CheckpointPaymentResult(a: nat, id: Id, bookingId: Id, response: Response, owner: bool) returns (checkpointed: bool)
      requires Valid() && ActorOf(state, a) == Charged(id, bookingId, response, owner)
      modifies this
      ensures Valid() && OthersUntouched(old(state), state, a)
      ensures clock == old(clock) && calls == old(calls) && index == old(index)
      ensures checkpointed <==>
        id in old(rows) && old(rows)[id].state.Processing? && old(rows)[id].bookingId == Some(bookingId)
      ensures rows ==
        if checkpointed then old(rows)[id := old(rows)[id].(response := Some(Persist(response)), updatedAt := clock)] else old(rows)
      ensures bookingId in old(bookings)
      ensures bookings ==
        if checkpointed then old(bookings)[bookingId := old(bookings)[bookingId].(
          paymentIntent := Some(response.txRef), original := Some(response))]
        else old(bookings)
      ensures ActorOf(state, a) == if checkpointed then Checkpointed(id, bookingId, response, owner) else AfterFailure(id, owner)
    {
      ChargedBookingExists(platform, state, a);
      Follow(StoredForm(platform), state, Checkpoint(a));
      state := DoCheckpoint(StoredForm(platform), state, a);
      checkpointed := id in rows && rows[id].state.Processing? && rows[id].bookingId == Some(bookingId);
      if checkpointed {
        bookings := bookings[bookingId := bookings[bookingId].(paymentIntent := Some(response.txRef), original := Some(response))];
        rows := rows[id := rows[id].(response := Some(Persist(response)), updatedAt := clock)];
      }
    }

    /** Completion also counts when somebody else has completed the row meanwhile. */
    method Complete(a: nat, id: Id, bookingId: Id, response: Response, owner: bool) returns (completed: bool)
      requires Valid() && ActorOf(state, a) == Checkpointed(id, bookingId, response, owner)
      modifies this
      ensures Valid() && OthersUntouched(old(state), state, a)
      ensures clock == old(clock) && calls == old(calls) && index == old(index) && bookings == old(bookings)
      ensures completed <==> id in old(rows) && (old(rows)[id].state.Processing? || old(rows)[id].response.Some?)
      ensures rows ==
        if id in old(rows) && old(rows)[id].state.Processing?
        then old(rows)[id := old(rows)[id].(state := RowState.Completed, updatedAt := clock)] else old(rows)
      ensures ActorOf(state, a) == if completed then Done(Created(response)) else AfterFailure(id, owner)
    {
      Follow(StoredForm(platform), state, BookingIdempotency.Step.Complete(a));
      state := DoComplete(state, a);
      if id in rows && rows[id].state.Processing? {
        rows := rows[id := rows[id].(state := RowState.Completed, updatedAt := clock)];
        completed := true;
      } else {
        completed := id in rows && rows[id].state.Completed? && rows[id].response.Some?;
      }
    }

    /** A claim that has no booking yet is given up; an attached one stays. */
    method Release(a: nat, id: Id)
      requires Valid() && ActorOf(state, a) == Releasing(id)
      modifies this
      ensures Valid() && OthersUntouched(old(state), state, a) && ActorOf(state, a) == Done(Failed)
      ensures clock == old(clock) && calls == old(calls) && bookings == old(bookings)
      ensures rows ==
        if id in old(rows) && old(rows)[id].bookingId.None? && old(rows)[id].state.Processing? then old(rows) - {id} else old(rows)
    {
      Follow(StoredForm(platform), state, BookingIdempotency.Step.Release(a));
      state := DoRelease(state, a);
      if id in rows && rows[id].bookingId.None? && rows[id].state.Processing? {
        index := index - {rows[id].key};
        rows := rows - {id};
      }
    }

    /** Retention: what is deleted is exactly what has expired, and the count says how much that was. */
    method CleanupExpiredRecords() returns (count: nat)
      requires Valid()
      modifies this
      ensures Valid()
      ensures clock == old(clock) && calls == old(calls) && bookings == old(bookings) && state.actors == old(state).actors
      ensures rows == old(rows) - ExpiredRows(old(rows), bookings, clock)
      ensures count == |ExpiredRows(old(rows), bookings, clock)|
    {
      CleanUpStep(StoredForm(platform), state);
      var expired := ExpiredRows(rows, bookings, clock);
      KeepIndexed(rows, index, expired);
      count := |expired|;
      index := map key | key in index && index[key] !in expired :: index[key];
      rows := rows - expired;
      state := DoCleanUp(state);
    }
  }

  /** The response `createPaymentAndSync` builds from the provider's checkout. */
  function ResponseOf(plan: Plan, bookingId: Id, checkout: Checkout, p: Platform): Response
  {
    Response(bookingId, checkout.paymentIntentId, checkout.checkoutUrl, plan.totalAmount, Pending,
             plan.reservationExpiresAt, if plan.isGuest then Some(p.tokenOf(bookingId)) else None)
  }

  /** Real dates, derivable tokens and non-empty provider references. */
  predicate PlanOk(plan: Plan, bookingId: Id, p: Platform)
  {
    && p.isDate(plan.reservationExpiresAt)
    && p.tokenOf(bookingId) != ""
    && (plan.provider.Some? ==> plan.provider.value.paymentIntentId != "")
  }

  predicate SameTables(s: State, t: State)
  {
    t.now == s.now && t.rows == s.rows && t.bookings == s.bookings
  }

  /** The row is completed with the stored form of the response; the booking has the provider's reference. */
  ghost predicate PaidTables(s: State, t: State, id: Id, bookingId: Id, response: Response)
  {
    && id in s.rows && bookingId in s.bookings
    && t.rows == s.rows[id := s.rows[id].(
         state := RowState.Completed, response := Some(Persist(response)), updatedAt := s.now)]
    && t.bookings == s.bookings[bookingId := s.bookings[bookingId].(
         paymentIntent := Some(response.txRef), original := Some(response))]
  }

  /** Where a claim that could be attached ends up: with an unpaid marked booking, or served. */
  ghost predicate CreationOutcome(s: State, t: State, req: Request, id: Id, bookingId: Id, result: Result<Response, CreationError>)
  {
    if !CanAttach(s, id) then t.rows == s.rows && t.bookings == s.bookings && t.calls == s.calls
    else
      && t.calls == s.calls + [bookingId]
      && t.rows == s.rows[id := s.rows[id].(
           bookingId := Some(bookingId), updatedAt := s.now,
           state := if result.Ok? then RowState.Completed else Processing,
           response := if result.Ok? then Some(Persist(result.value)) else s.rows[id].response)]
      && t.bookings == s.bookings[bookingId := Booking(
           Some(if result.Ok? then result.value.txRef else bookingId), false, id, req.key,
           if result.Ok? then Some(result.value) else None)]
  }

  predicate AnsweredWith(s: State, a: nat, r: Response)
  {
    ActorOf(s, a) == Done(Created(r)) || ActorOf(s, a) == Done(Replayed(r))
  }

  function ServedResult(s: State, claim: Result<Claim, CreationError>, plan: Plan, p: Platform): Result<Response, CreationError>
  {
    match claim
    case Err(e) => Err(e)
    case Ok(Replay(response)) => Ok(response)
    case Ok(Resume(_, _)) => Err(BookingRequestInProgress)
    case Ok(Claimed(id)) =>
      if plan.creationFails || !CanAttach(s, id) then Err(BookingCreationFailed)
      else if plan.provider.None? then Err(PaymentIntentFailed)
      else if plan.syncThrows then Err(BookingPaymentSyncFailed)
      else Ok(ResponseOf(plan, plan.newBookingId, plan.provider.value, p))
  }

  /** The attachment and the payment put together. */
  lemma AttachedThenPaid(s: State, t: State, u: State, req: Request, id: Id, bookingId: Id, result: Result<Response, CreationError>)
    requires CanAttach(s, id) && t.now == s.now && t.calls == s.calls
    requires t.rows == s.rows[id := s.rows[id].(bookingId := Some(bookingId), updatedAt := s.now)]
    requires t.bookings == s.bookings[bookingId := Booking(Some(bookingId), false, id, req.key, None)]
    requires u.calls == t.calls + [bookingId]
    requires result.Err? ==> SameTables(t, u)
    requires result.Ok? ==> PaidTables(t, u, id, bookingId, result.value)
    ensures CreationOutcome(s, u, req, id, bookingId, result)
    ensures CanCheckpoint(t, id, bookingId)
  {}

  /** What serving a claim on a free key comes to: a completed row, or no row at all. */
  lemma FreshKeyServed(s: State, t: State, u: State, req: Request, plan: Plan, p: Platform, result: Result<Response, CreationError>)
    requires plan.newRowId !in s.rows && t.rows == s.rows[plan.newRowId := NewRow(req, s.now)] && t.now == s.now
    requires result == ServedResult(t, Ok(Claimed(plan.newRowId)), plan, p)
    requires !plan.creationFails ==> CreationOutcome(t, u, req, plan.newRowId, plan.newBookingId, result)
    requires plan.creationFails ==> u.rows == t.rows - {plan.newRowId}
    ensures CanAttach(t, plan.newRowId)
    ensures !plan.creationFails && plan.provider.Some? && !plan.syncThrows ==>
      result == Ok(ResponseOf(plan, plan.newBookingId, plan.provider.value, p))
      && u.rows == s.rows[plan.newRowId :=
           Row(req.key, req.requestHash, RowState.Completed, Some(plan.newBookingId), Some(Persist(result.value)), s.now)]
    ensures plan.creationFails ==> result.Err? && u.rows == s.rows
  {}

  /** A row of the key that may not be stolen answers for it: what the request is told, and what is written in the row. */
  lemma HeldKeyAnswers(p: Platform, s: State, t: State, id: Id, req: Request, plan: Plan)
    requires Reachable(StoredForm(p), s) && id in s.rows && !Stealable(s.rows[id], req, s.now)
    ensures var claim := AnswerFor(s.rows[id], id, req, s.now, p);
      && !(claim.Ok? && claim.value.Claimed?)
      && HeldKeyAnswered(s.rows[id], ClaimedRow(s.rows[id], req, s.now), req, s.now, p, ServedResult(t, claim, plan, p))
  {
    if s.rows[id].state.Completed? || s.rows[id].response.Some? { StoredResponsesParse(p, s, id); }
  }

  /** Another request's key is refused, a response replayed, and everything else is in progress for now. */
  predicate HeldKeyAnswered(row: Row, after: Row, req: Request, now: nat, p: Platform, result: Result<Response, CreationError>)
  {
    if row.requestHash != req.requestHash then result == Err(IdempotencyKeyReused) && after == row
    else if row.response.Some? then
      && Parse(row.response.value, p).Ok? && result == Ok(Parse(row.response.value, p).value)
      && after == (if row.state.Completed? then row else row.(state := RowState.Completed, updatedAt := now))
    else
      && result == Err(BookingRequestInProgress)
      && after == (if row.updatedAt + 60_000 <= now then row.(updatedAt := now) else row)
  }

  /** What a request is answered and leaves in the rows, once its claim and what follows from it are known. */
  lemma ServingConcludes(s: State, t: State, u: State, index: map<Key, Id>, req: Request, plan: Plan, p: Platform,
                         claim: Result<Claim, CreationError>, result: Result<Response, CreationError>)
    requires Reachable(StoredForm(p), s) && Indexed(s.rows, index) && plan.newRowId !in s.rows && t.now == s.now
    requires MayClaim(s.rows, index, req, s.now) ==>
      claim == Ok(Claimed(plan.newRowId)) && t.rows == Remaining(s.rows, index, req)[plan.newRowId := NewRow(req, s.now)]
    requires !MayClaim(s.rows, index, req, s.now) ==>
      var id := index[req.key];
      claim == AnswerFor(s.rows[id], id, req, s.now, p) && t.rows == s.rows[id := ClaimedRow(s.rows[id], req, s.now)]
    requires t.bookings == s.bookings && t.calls == s.calls && Serves(t, u, req, claim, plan, p, result)
    ensures Concluded(s, u, index, req, plan, p, result)
    ensures u.calls == s.calls || PaidFor(plan, s, u, p, result)
    ensures MayClaim(s.rows, index, req, s.now) && result.Ok? ==> u.calls != s.calls
  {
    if MayClaim(s.rows, index, req, s.now) {
      FreshKeyServed(s.(rows := Remaining(s.rows, index, req)), t, u, req, plan, p, result);
    } else {
      HeldKeyAnswers(p, s, t, index[req.key], req, plan);
    }
  }

  /** What follows from a claim: nothing more, the creation, or the end of the claim. */
  ghost predicate Serves(s: State, u: State, req: Request, claim: Result<Claim, CreationError>, plan: Plan, p: Platform, result: Result<Response, CreationError>)
  {
    && result == ServedResult(s, claim, plan, p)
    && if !(claim.Ok? && claim.value.Claimed?) then SameTables(s, u) && u.calls == s.calls
       else if !plan.creationFails && CanAttach(s, claim.value.id) then
         CreationOutcome(s, u, req, claim.value.id, plan.newBookingId, result)
       else
         && u.rows == (if CanAttach(s, claim.value.id) then s.rows - {claim.value.id} else s.rows)
         && u.bookings == s.bookings && u.calls == s.calls
  }

  /** The provider has been asked once, about the booking of this request, and what it answered is passed on. */
  ghost predicate PaidFor(plan: Plan, s: State, u: State, p: Platform, result: Result<Response, CreationError>)
  {
    && u.calls == s.calls + [plan.newBookingId]
    && (result.Ok? ==> plan.provider.Some? && result.value == ResponseOf(plan, plan.newBookingId, plan.provider.value, p))
  }

  /**
    A key that may be claimed is served and leaves a completed row behind, unless something fails; a
    failure before the booking exists leaves no trace, so that the key is free again. Any other row of
    the key answers for it.
   */
  ghost predicate Concluded(s: State, u: State, index: map<Key, Id>, req: Request, plan: Plan, p: Platform, result: Result<Response, CreationError>)
    requires Indexed(s.rows, index)
  {
    if MayClaim(s.rows, index, req, s.now) then
      && (!plan.creationFails && plan.provider.Some? && !plan.syncThrows ==>
            && result == Ok(ResponseOf(plan, plan.newBookingId, plan.provider.value, p))
            && u.rows == Remaining(s.rows, index, req)[plan.newRowId :=
                 Row(req.key, req.requestHash, RowState.Completed, Some(plan.newBookingId), Some(Persist(result.value)), s.now)])
      && (plan.creationFails ==>
            result.Err? && u.rows == Remaining(s.rows, index, req) && u.bookings == s.bookings && u.calls == s.calls)
    else
      var id := index[req.key];
      && u.bookings == s.bookings && u.calls == s.calls && id in u.rows && u.rows == s.rows[id := u.rows[id]]
      && HeldKeyAnswered(s.rows[id], u.rows[id], req, s.now, p, result)
  }

  lemma ChargeStep(p: Platform, s: State, a: nat, response: Response)
    requires Reachable(StoredForm(p), s) && ActorOf(s, a).Paying?
    requires response.bookingId == ActorOf(s, a).bookingId && response.txRef != "" && WellFormed(response, p)
    ensures Reachable(StoredForm(p), SetActor(s.(calls := s.calls + [response.bookingId]), a,
      Charged(ActorOf(s, a).id, response.bookingId, response, ActorOf(s, a).owner)))
  {
    Follow(StoredForm(p), s, Charge(a, response));
  }

  lemma CheckpointThrowsStep(c: Codec, s: State, a: nat)
    requires Reachable(c, s) && ActorOf(s, a).Charged?
    ensures Reachable(c, SetActor(s, a, AfterFailure(ActorOf(s, a).id, ActorOf(s, a).owner)))
  {
    Follow(c, s, CheckpointThrows(a));
  }

  /** A refused payment: the call is made, the booking is marked unpaid, an owner will release its claim. */
  lemma RefusalSteps(c: Codec, s: State, a: nat)
    requires Reachable(c, s) && ActorOf(s, a).Paying?
    ensures var p := ActorOf(s, a);
      Reachable(c, SetActor(s.(calls := s.calls + [p.bookingId]), a, AfterFailure(p.id, p.owner)))
  {
    var p := ActorOf(s, a);
    var t := SetActor(s.(calls := s.calls + [p.bookingId]), a, Compensating(p.id, p.bookingId, p.owner));
    Follow(c, s, ChargeFails(a));
    Follow(c, t, MarkUnpaid(a));
    assert t.actors[a := AfterFailure(p.id, p.owner)] == s.actors[a := AfterFailure(p.id, p.owner)];
  }

  class BookingCreationService {
    const idempotency: BookingCreationIdempotencyService

    constructor (idempotency: BookingCreationIdempotencyService)
      ensures this.idempotency == idempotency
    {
      this.idempotency := idempotency;
    }

    /** A provider that refuses: the call has been made, the booking stays, unpaid. */
    method HandlePaymentFailure(a: nat, id: Id, bookingId: Id, owner: bool)
      requires idempotency.Valid() && ActorOf(idempotency.state, a) == Paying(id, bookingId, owner)
      modifies idempotency
      ensures idempotency.Valid() && OthersUntouched(old(idempotency.state), idempotency.state, a)
      ensures ActorOf(idempotency.state, a) == AfterFailure(id, owner)
      ensures idempotency.calls == old(idempotency.calls) + [bookingId]
      ensures SameTables(old(idempotency.state), idempotency.state) && idempotency.index == old(idempotency.index)
    {
      RefusalSteps(StoredForm(idempotency.platform), idempotency.state, a);
      idempotency.calls := idempotency.calls + [bookingId];
      idempotency.state := SetActor(idempotency.state.(calls := idempotency.calls), a, AfterFailure(id, owner));
    }

    /** A provider that accepts. */
    method RecordCheckout(a: nat, id: Id, bookingId: Id, owner: bool, response: Response)
      requires idempotency.Valid() && ActorOf(idempotency.state, a) == Paying(id, bookingId, owner)
      requires response.bookingId == bookingId && response.txRef != "" && WellFormed(response, idempotency.platform)
      modifies idempotency
      ensures idempotency.Valid() && OthersUntouched(old(idempotency.state), idempotency.state, a)
      ensures ActorOf(idempotency.state, a) == Charged(id, bookingId, response, owner)
      ensures idempotency.calls == old(idempotency.calls) + [bookingId]
      ensures SameTables(old(idempotency.state), idempotency.state) && idempotency.index == old(idempotency.index)
    {
      ChargeStep(idempotency.platform, idempotency.state, a, response);
      idempotency.calls := idempotency.calls + [bookingId];
      idempotency.state := SetActor(idempotency.state.(calls := idempotency.calls), a, Charged(id, bookingId, response, owner));
    }

    method CreatePaymentAndSync(a: nat, id: Id, bookingId: Id, owner: bool, plan: Plan) returns (result: Result<Response, CreationError>)
      requires idempotency.Valid() && ActorOf(idempotency.state, a) == Paying(id, bookingId, owner)
      requires PlanOk(plan, bookingId, idempotency.platform)
      modifies idempotency
      ensures idempotency.Valid() && OthersUntouched(old(idempotency.state), idempotency.state, a)
      ensures idempotency.clock == old(idempotency.clock) && idempotency.index == old(idempotency.index)
      ensures idempotency.calls == old(idempotency.calls) + [bookingId]
      ensures ActorOf(idempotency.state, a) == if result.Ok? then Done(Created(result.value)) else AfterFailure(id, owner)
      ensures result ==
        if plan.provider.None? then Err(PaymentIntentFailed)
        else if plan.syncThrows || !CanCheckpoint(old(idempotency.state), id, bookingId) then Err(BookingPaymentSyncFailed)
        else Ok(ResponseOf(plan, bookingId, plan.provider.value, idempotency.platform))
      ensures result.Err? ==> SameTables(old(idempotency.state), idempotency.state)
      ensures result.Ok? ==> PaidTables(old(idempotency.state), idempotency.state, id, bookingId, result.value)
      // field by field: the provider's reference and URL, the plan's total and expiry, a token for guests only
      ensures result.Ok? ==>
        && plan.provider.Some? && result.value.bookingId == bookingId
        && result.value.txRef == plan.provider.value.paymentIntentId
        && result.value.checkoutUrl == plan.provider.value.checkoutUrl
        && result.value.totalAmount == plan.totalAmount && result.value.bookingStatus == Pending
        && result.value.reservationExpiresAt == plan.reservationExpiresAt
        && result.value.paymentStatusToken == (if plan.isGuest then Some(idempotency.platform.tokenOf(bookingId)) else None)
    {
      if plan.provider.None? {
        HandlePaymentFailure(a, id, bookingId, owner);
        result := Err(PaymentIntentFailed);
      } else {
        var response := ResponseOf(plan, bookingId, plan.provider.value, idempotency.platform);
        RecordCheckout(a, id, bookingId, owner, response);
        var synced := SyncPaymentIntentWithBooking(a, id, bookingId, owner, plan.syncThrows, response);
        result := if synced then Ok(response) else Err(BookingPaymentSyncFailed);
      }
    }

    method SyncPaymentIntentWithBooking(a: nat, id: Id, bookingId: Id, owner: bool, throws: bool, response: Response)
      returns (synced: bool)
      requires idempotency.Valid() && ActorOf(idempotency.state, a) == Charged(id, bookingId, response, owner)
      modifies idempotency
      ensures idempotency.Valid() && OthersUntouched(old(idempotency.state), idempotency.state, a)
      ensures idempotency.clock == old(idempotency.clock) && idempotency.index == old(idempotency.index)
      ensures idempotency.calls == old(idempotency.calls)
      ensures synced <==> !throws && CanCheckpoint(old(idempotency.state), id, bookingId)
      ensures ActorOf(idempotency.state, a) == if synced then Done(Created(response)) else AfterFailure(id, owner)
      ensures !synced ==> SameTables(old(idempotency.state), idempotency.state)
      ensures synced ==> PaidTables(old(idempotency.state), idempotency.state, id, bookingId, response)
    {
      if throws {
        CheckpointThrowsStep(StoredForm(idempotency.platform), idempotency.state, a);
        idempotency.state := SetActor(idempotency.state, a, AfterFailure(id, owner));
        synced := false;
      } else {
        synced := idempotency.CheckpointPaymentResult(a, id, bookingId, response, owner);
        if synced {
          synced := idempotency.Complete(a, id, bookingId, response, owner);
        }
      }
    }

    /** With a marker on every attached booking this never gets as far as the provider. */
    method ResumeBookingPayment(a: nat, id: Id, bookingId: Id, plan: Plan) returns (result: Result<Response, CreationError>)
      requires idempotency.Valid() && ActorOf(idempotency.state, a) == Resuming(id, bookingId)
      requires PlanOk(plan, bookingId, idempotency.platform)
      modifies idempotency
      ensures idempotency.Valid() && OthersUntouched(old(idempotency.state), idempotency.state, a)
      ensures result == Err(BookingRequestInProgress) && ActorOf(idempotency.state, a) == Done(InProgress)
      ensures idempotency.calls == old(idempotency.calls) && idempotency.rows == old(idempotency.rows)
      ensures idempotency.bookings == old(idempotency.bookings) && idempotency.clock == old(idempotency.clock)
    {
      ResumedBookingHasMarker(idempotency.platform, idempotency.state, a);
      Follow(StoredForm(idempotency.platform), idempotency.state, ReadBooking(a));
      idempotency.state := DoReadBooking(idempotency.state, a);
      result := Err(if bookingId in idempotency.bookings then BookingRequestInProgress else BookingCreationFailed);
    }

    /** The creation transaction and, if it commits, the payment. */
    method CreateBookingWithPayment(a: nat, req: Request, id: Id, plan: Plan) returns (result: Result<Response, CreationError>)
      requires idempotency.Valid() && ActorOf(idempotency.state, a) == Creating(req, id)
      requires plan.newBookingId !in idempotency.bookings && plan.newBookingId != ""
      requires PlanOk(plan, plan.newBookingId, idempotency.platform)
      modifies idempotency
      ensures idempotency.Valid() && OthersUntouched(old(idempotency.state), idempotency.state, a)
      ensures idempotency.clock == old(idempotency.clock)
      ensures ActorOf(idempotency.state, a) == if result.Ok? then Done(Created(result.value)) else Releasing(id)
      ensures result ==
        if !CanAttach(old(idempotency.state), id) then Err(BookingCreationFailed)
        else if plan.provider.None? then Err(PaymentIntentFailed)
        else if plan.syncThrows then Err(BookingPaymentSyncFailed)
        else Ok(ResponseOf(plan, plan.newBookingId, plan.provider.value, idempotency.platform))
      ensures CreationOutcome(old(idempotency.state), idempotency.state, req, id, plan.newBookingId, result)
      // field by field: the provider's reference and URL, the plan's total and expiry, a token for guests only
      ensures result.Ok? ==>
        && plan.provider.Some? && result.value.bookingId == plan.newBookingId
        && result.value.txRef == plan.provider.value.paymentIntentId
        && result.value.checkoutUrl == plan.provider.value.checkoutUrl
        && result.value.totalAmount == plan.totalAmount && result.value.bookingStatus == Pending
        && result.value.reservationExpiresAt == plan.reservationExpiresAt
        && result.value.paymentStatusToken == (if plan.isGuest then Some(idempotency.platform.tokenOf(plan.newBookingId)) else None)
    {
      ghost var s := idempotency.state;
      var attached := idempotency.AttachBooking(a, req, id, plan.newBookingId);
      if attached {
        ghost var t := idempotency.state;
        result := CreatePaymentAndSync(a, id, plan.newBookingId, true, plan);
        AttachedThenPaid(s, t, idempotency.state, req, id, plan.newBookingId, result);
      } else {
        result := Err(BookingCreationFailed);
      }
    }

    /** A failure before the creation transaction commits: the claim is given up. */
    method AbandonClaim(a: nat, req: Request, id: Id)
      requires idempotency.Valid() && ActorOf(idempotency.state, a) == Creating(req, id)
      modifies idempotency
      ensures idempotency.Valid() && OthersUntouched(old(idempotency.state), idempotency.state, a)
      ensures ActorOf(idempotency.state, a) == Done(Failed) && idempotency.clock == old(idempotency.clock)
      ensures idempotency.bookings == old(idempotency.bookings) && idempotency.calls == old(idempotency.calls)
      ensures idempotency.rows == if CanAttach(old(idempotency.state), id) then old(idempotency.rows) - {id} else old(idempotency.rows)
    {
      Follow(StoredForm(idempotency.platform), idempotency.state, CreationFails(a));
      idempotency.state := SetActor(idempotency.state, a, Releasing(id));
      idempotency.Release(a, id);
    }

    /** A claimed request is served, or its claim is given up; a booking once attached keeps its row. */
    method CreateClaimed(a: nat, req: Request, id: Id, plan: Plan) returns (result: Result<Response, CreationError>)
      requires idempotency.Valid() && ActorOf(idempotency.state, a) == Creating(req, id)
      requires plan.newBookingId !in idempotency.bookings && plan.newBookingId != ""
      requires PlanOk(plan, plan.newBookingId, idempotency.platform)
      modifies idempotency
      ensures idempotency.Valid() && OthersUntouched(old(idempotency.state), idempotency.state, a)
      ensures idempotency.clock == old(idempotency.clock)
      ensures ActorOf(idempotency.state, a) == Done(if result.Ok? then Created(result.value) else Failed)
      ensures result ==
        if plan.creationFails || !CanAttach(old(idempotency.state), id) then Err(BookingCreationFailed)
        else if plan.provider.None? then Err(PaymentIntentFailed)
        else if plan.syncThrows then Err(BookingPaymentSyncFailed)
        else Ok(ResponseOf(plan, plan.newBookingId, plan.provider.value, idempotency.platform))
      ensures !plan.creationFails && CanAttach(old(idempotency.state), id) ==>
        CreationOutcome(old(idempotency.state), idempotency.state, req, id, plan.newBookingId, result)
      ensures plan.creationFails || !CanAttach(old(idempotency.state), id) ==>
        && idempotency.rows == (if CanAttach(old(idempotency.state), id) then old(idempotency.rows) - {id} else old(idempotency.rows))
        && idempotency.bookings == old(idempotency.bookings) && idempotency.calls == old(idempotency.calls)
    {
      if plan.creationFails {
        AbandonClaim(a, req, id);
        result := Err(BookingCreationFailed);
      } else {
        result := CreateBookingWithPayment(a, req, id, plan);
        if result.Err? {
          idempotency.Release(a, id);
        }
      }
    }

    /** What follows from the claim: an error or a replay is passed on, a resume refused, a claim used. */
    method ServeClaim(a: nat, req: Request, claim: Result<Claim, CreationError>, plan: Plan) returns (result: Result<Response, CreationError>)
      requires idempotency.Valid() && ActorOf(idempotency.state, a) == ActorFor(req, claim)
      requires plan.newBookingId !in idempotency.bookings && plan.newBookingId != ""
      requires forall b :: PlanOk(plan, b, idempotency.platform)
      modifies idempotency
      ensures idempotency.Valid() && OthersUntouched(old(idempotency.state), idempotency.state, a)
      ensures idempotency.clock == old(idempotency.clock)
      ensures ActorOf(idempotency.state, a).Done?
      ensures result.Ok? ==> AnsweredWith(idempotency.state, a, result.value)
      ensures Serves(old(idempotency.state), idempotency.state, req, claim, plan, idempotency.platform, result)
    {
      match claim {
        case Err(e) =>
          result := Err(e);
        case Ok(Replay(response)) =>
          result := Ok(response);
        case Ok(Resume(id, bookingId)) =>
          result := ResumeBookingPayment(a, id, bookingId, plan);
        case Ok(Claimed(id)) =>
          result := CreateClaimed(a, req, id, plan);
      }
    }

    /** The claim and what follows from it. */
    method ClaimAndServe(a: nat, req: Request, plan: Plan) returns (result: Result<Response, CreationError>)
      requires idempotency.Valid() && ActorOf(idempotency.state, a).Idle?
      requires plan.newRowId !in idempotency.state.used
      requires plan.newBookingId !in idempotency.bookings && plan.newBookingId != ""
      requires forall b :: PlanOk(plan, b, idempotency.platform)
      modifies idempotency
      ensures idempotency.Valid() && OthersUntouched(old(idempotency.state), idempotency.state, a)
      ensures ActorOf(idempotency.state, a).Done? && idempotency.clock == old(idempotency.clock)
      ensures result.Ok? ==> AnsweredWith(idempotency.state, a, result.value)
      ensures idempotency.calls == old(idempotency.calls) || PaidFor(plan, old(idempotency.state), idempotency.state, idempotency.platform, result)
      ensures MayClaim(old(idempotency.state).rows, old(idempotency.index), req, old(idempotency.state).now) && result.Ok? ==>
        idempotency.calls != old(idempotency.calls)
      ensures Concluded(old(idempotency.state), idempotency.state, old(idempotency.index), req, plan, idempotency.platform, result)
    {
      ghost var s := idempotency.state;
      ghost var index := idempotency.index;
      RowsAreUsed(idempotency.platform, s);
      var claim := idempotency.Claim(a, req, plan.newRowId);
      ghost var t := idempotency.state;
      result := ServeClaim(a, req, claim, plan);
      ServingConcludes(s, t, idempotency.state, index, req, plan, idempotency.platform, claim, result);
    }

    /** `createBooking`: claim, then serve. */
    method CreateBooking(a: nat, req: Request, plan: Plan) returns (result: Result<Response, CreationError>)
      requires idempotency.Valid() && ActorOf(idempotency.state, a).Idle?
      requires plan.newRowId !in idempotency.state.used
      requires plan.newBookingId !in idempotency.bookings && plan.newBookingId != ""
      requires forall b :: PlanOk(plan, b, idempotency.platform)
      modifies idempotency
      ensures idempotency.Valid() && OthersUntouched(old(idempotency.state), idempotency.state, a)
      ensures ActorOf(idempotency.state, a).Done?
      // every answer is the original response of the booking it names
      ensures result.Ok? ==>
        && result.value.bookingId in idempotency.bookings
        && idempotency.bookings[result.value.bookingId].original == Some(result.value)
      // the provider is asked at most once, and only about a booking of this request's own
      ensures idempotency.calls == old(idempotency.calls) || idempotency.calls == old(idempotency.calls) + [plan.newBookingId]
      // what a request that paid is answered, field by field; one for a free key is answered only so
      ensures MayClaim(old(idempotency.rows), old(idempotency.index), req, idempotency.clock) && result.Ok? ==>
        idempotency.calls != old(idempotency.calls)
      ensures idempotency.calls != old(idempotency.calls) && result.Ok? ==>
        && plan.provider.Some? && result.value.bookingId == plan.newBookingId
        && result.value.txRef == plan.provider.value.paymentIntentId
        && result.value.checkoutUrl == plan.provider.value.checkoutUrl
        && result.value.totalAmount == plan.totalAmount && result.value.bookingStatus == Pending
        && result.value.reservationExpiresAt == plan.reservationExpiresAt
        && result.value.paymentStatusToken == (if plan.isGuest then Some(idempotency.platform.tokenOf(plan.newBookingId)) else None)
      // a key that may be claimed is served; any other is answered from its row, without a booking or a call
      ensures Concluded(old(idempotency.state), idempotency.state, old(idempotency.index), req, plan, idempotency.platform, result)
    {
      result := ClaimAndServe(a, req, plan);
      if result.Ok? { AnswerIsOriginal(idempotency.platform, idempotency.state, a); }
    }
  }
}
