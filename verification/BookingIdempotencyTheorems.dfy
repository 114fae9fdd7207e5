/**
  What holds of every run of idempotent booking creation: one booking for each key, one call to the
  provider for each booking, and one response, the same for everyone who is answered.
 */
module BookingIdempotencyTheorems {
  import opened Foundations
  import opened BookingResponse
  import opened BookingIdempotency

  /** Of the bookings ever committed for one key, all but one have had their row retired by retention. */
  lemma OneBookingPerKey(c: Codec, s: State, b: Id, d: Id)
    requires Faithful(c) && Reachable(c, s)
    requires b in s.bookings && d in s.bookings && b != d && s.bookings[b].key == s.bookings[d].key
    ensures s.bookings[b].row in s.retired || s.bookings[d].row in s.retired
  {
    ReachableInv(c, s);
    assert BookingOk(c, s, b) && BookingOk(c, s, d);
  }

  /** While a row holds a booking, no other request for its key commits one. */
  lemma AttachedKeyBlocksCommits(c: Codec, s: State, a: nat, bookingId: Id, held: Id)
    requires Faithful(c) && Reachable(c, s) && Enabled(c, s, Commit(a, bookingId))
    requires held in s.rows && s.rows[held].bookingId.Some? && s.rows[held].key == ActorOf(s, a).req.key
    ensures DoCommit(s, a, bookingId).bookings == s.bookings
  {
    ReachableInv(c, s);
    assert ActorOk(c, s, ActorOf(s, a));
  }

  /** A claimant whose row was stolen cannot commit a booking any more: it aborts at the attachment. */
  lemma LostClaimAborts(c: Codec, s: State, run: seq<Step>, a: nat, bookingId: Id)
    requires ValidRun(c, s, run)
    requires ActorOf(s, a).Creating? && ActorOf(s, a).id in s.used && ActorOf(s, a).id !in s.rows
    requires ActorOf(After(c, s, run), a) == ActorOf(s, a)
    ensures DoCommit(After(c, s, run), a, bookingId).bookings == After(c, s, run).bookings
    ensures DoCommit(After(c, s, run), a, bookingId).actors[a] == Releasing(ActorOf(s, a).id)
  {
    DeletedRowsNeverReturn(c, s, run, ActorOf(s, a).id);
  }

  lemma {:induction false} DeletedRowsNeverReturn(c: Codec, s: State, run: seq<Step>, id: Id)
    requires ValidRun(c, s, run) && id in s.used && id !in s.rows
    ensures id in After(c, s, run).used && id !in After(c, s, run).rows
    decreases |run|
  {
    if run != [] {
      DeletedRowStaysDeleted(c, s, run[0], id);
      DeletedRowsNeverReturn(c, Do(c, s, run[0]), run[1..], id);
    }
  }

  lemma DeletedRowStaysDeleted(c: Codec, s: State, step: Step, id: Id)
    requires Enabled(c, s, step) && id in s.used && id !in s.rows
    ensures id in Do(c, s, step).used && id !in Do(c, s, step).rows
  {}

  /** Only retention cleanup deletes a row that holds a booking, and then only an ended or completed one. */
  lemma OnlyCleanUpDeletesAttachedRows(c: Codec, s: State, step: Step, id: Id)
    requires Enabled(c, s, step)
    requires id in s.rows && s.rows[id].bookingId.Some? && id !in Do(c, s, step).rows
    ensures step.CleanUp? && s.rows[id].updatedAt + 86_400_000 < s.now
    ensures s.rows[id].state.Completed?
      || (s.rows[id].bookingId.value in s.bookings && s.bookings[s.rows[id].bookingId.value].ended)
  {}

  /** Retention deletes the rows of more than a day ago that are completed, hold no booking or hold an ended one, and no others. */
  lemma CleanUpDeletesExactly(c: Codec, s: State, id: Id)
    requires id in s.rows
    ensures id !in Do(c, s, CleanUp).rows <==>
      && s.now > s.rows[id].updatedAt + 86_400_000
      && (s.rows[id].state.Completed? || s.rows[id].bookingId.None?
          || (s.rows[id].bookingId.value in s.bookings && s.bookings[s.rows[id].bookingId.value].ended))
    ensures id in Do(c, s, CleanUp).rows ==> Do(c, s, CleanUp).rows[id] == s.rows[id]
    ensures Do(c, s, CleanUp).bookings == s.bookings && Do(c, s, CleanUp).calls == s.calls
  {}

  // ----- the lease

  /** Who is about to take over or steal a claim read it when its minute was over. */
  ghost predicate LeasesRunOut(s: State)
  {
    forall a :: a in s.actors && (s.actors[a].TakingOver? || s.actors[a].Stealing?) ==> s.actors[a].seen.updatedAt + 60_000 <= s.now
  }

  lemma {:induction false} RunKeepsLeases(c: Codec, s: State, run: seq<Step>)
    requires LeasesRunOut(s) && ValidRun(c, s, run)
    ensures LeasesRunOut(After(c, s, run))
    decreases |run|
  {
    if run != [] {
      StepKeepsLeases(c, s, run[0]);
      RunKeepsLeases(c, Do(c, s, run[0]), run[1..]);
    }
  }

  lemma StepKeepsLeases(c: Codec, s: State, step: Step)
    requires LeasesRunOut(s) && Enabled(c, s, step)
    ensures LeasesRunOut(Do(c, s, step))
  {
    TimeOnlyPasses(c, s, step);
    if step.Decide? {
      DecidingWaits(c, s, step.a);
    } else {
      forall a | a in Do(c, s, step).actors { OnlyDecidingTakesOver(c, s, step, a); }
    }
  }

  lemma TimeOnlyPasses(c: Codec, s: State, step: Step)
    requires Enabled(c, s, step)
    ensures s.now <= Do(c, s, step).now
  {}

  lemma DecidingWaits(c: Codec, s: State, a: nat)
    requires Enabled(c, s, Decide(a))
    ensures var p := Do(c, s, Decide(a)).actors[a];
      p.TakingOver? || p.Stealing? ==> p.seen.updatedAt + 60_000 <= s.now
  {}

  predicate Claims(step: Step)
  {
    step.Arrive? || step.Insert? || step.Read? || step.ReadNothing? || step.Finalize? || step.TakeOver? || step.Steal? || step.ReadBooking?
  }

  lemma OnlyDecidingTakesOver(c: Codec, s: State, step: Step, a: nat)
    requires Enabled(c, s, step) && !step.Decide? && a in Do(c, s, step).actors
    ensures var p := Do(c, s, step).actors[a];
      p.TakingOver? || p.Stealing? ==> a in s.actors && p == s.actors[a]
  {
    if Claims(step) { ClaimsTakeNothingOver(c, s, step, a); } else { OthersTakeNothingOver(c, s, step, a); }
  }

  lemma ClaimsTakeNothingOver(c: Codec, s: State, step: Step, a: nat)
    requires Enabled(c, s, step) && Claims(step) && a in Do(c, s, step).actors
    ensures var p := Do(c, s, step).actors[a];
      p.TakingOver? || p.Stealing? ==> a in s.actors && p == s.actors[a]
  {}

  lemma OthersTakeNothingOver(c: Codec, s: State, step: Step, a: nat)
    requires Enabled(c, s, step) && !Claims(step) && !step.Decide? && a in Do(c, s, step).actors
    ensures var p := Do(c, s, step).actors[a];
      p.TakingOver? || p.Stealing? ==> a in s.actors && p == s.actors[a]
  {}

  /**
    For a minute after its last write a claim under way is left to its request: no other steals it or
    takes it over, and it disappears only when a request that held it gives it up.
   */
  lemma LeaseIsRespected(c: Codec, s: State, step: Step, id: Id)
    requires Reachable(c, s) && Enabled(c, s, step)
    requires id in s.rows && s.rows[id].state.Processing? && s.now < s.rows[id].updatedAt + 60_000
    ensures step.TakeOver? || step.Steal? || step.CleanUp? ==> id in Do(c, s, step).rows && Do(c, s, step).rows[id] == s.rows[id]
    ensures id !in Do(c, s, step).rows ==> step.Release? && ActorOf(s, step.a) == Releasing(id) && s.rows[id].bookingId.None?
  {
    var init, run :| Initial(init) && ValidRun(c, init, run) && After(c, init, run) == s;
    RunKeepsLeases(c, init, run);
  }

  /**
    What a request does about the row it has read: refuse another request's key, replay or finish what
    has a response, wait for a minute, and then resume the booking or steal the claim.
   */
  lemma RowDecides(c: Codec, now: nat, p: Actor)
    requires p.Deciding?
    ensures var next := Decision(c, now, p);
      var same := p.seen.requestHash == p.req.requestHash;
      var open := same && p.seen.state.Processing? && p.seen.response.None?;
      && (next == Done(KeyReused) <==> !same)
      && (same && p.seen.state.Completed? ==>
            next == Done(Failed) || (p.seen.response.Some? && c.parse(p.seen.response.value) == Ok(next.outcome.response)))
      && (next == Finalizing(p.id, p.seen) <==> same && p.seen.state.Processing? && p.seen.response.Some?)
      && (next == Done(InProgress) <==> open && now < p.seen.updatedAt + 60_000)
      && (next == TakingOver(p.id, p.seen) <==> open && now >= p.seen.updatedAt + 60_000 && p.seen.bookingId.Some?)
      && (next == Stealing(p.req, p.attempt, p.id, p.seen) <==> open && now >= p.seen.updatedAt + 60_000 && p.seen.bookingId.None?)
  {}

  /** An insert succeeds for a free key at the first, second and third attempt; after that the request gives up. */
  lemma ThreeAttempts(c: Codec, s: State, a: nat, id: Id)
    requires Enabled(c, s, Insert(a, id))
    ensures var p := ActorOf(s, a); var t := Do(c, s, Insert(a, id));
      && (p.attempt > 3 <==> t.actors[a] == Done(InProgress))
      && (p.attempt <= 3 && !HasKey(s.rows, p.req.key) <==> t.actors[a] == Creating(p.req, id))
      && t.rows == (if t.actors[a].Creating?
                    then s.rows[id := Row(p.req.key, p.req.requestHash, Processing, None, None, s.now)] else s.rows)
  {}

  /** The provider is asked for a checkout at most once per booking. */
  lemma OneCheckoutPerBooking(c: Codec, s: State)
    requires Faithful(c) && Reachable(c, s)
    ensures forall i, j :: 0 <= i < j < |s.calls| ==> s.calls[i] != s.calls[j]
    ensures forall i :: 0 <= i < |s.calls| ==> s.calls[i] in s.bookings
  {
    ReachableInv(c, s);
  }

  /** A resumed request never reaches the provider, nor does the payment API: the marker is always there. */
  lemma ResumeNeverPays(c: Codec, s: State)
    requires Faithful(c) && Reachable(c, s)
    ensures forall a :: Enabled(c, s, ReadBooking(a)) ==> DoReadBooking(s, a).actors[a] == Done(InProgress)
    ensures forall b, reference :: !Enabled(c, s, PayThroughApi(b, reference))
    ensures forall a :: ActorOf(s, a).Paying? ==> ActorOf(s, a).owner
  {
    ReachableInv(c, s);
    forall a | Enabled(c, s, ReadBooking(a)) ensures DoReadBooking(s, a).actors[a] == Done(InProgress) {
      ReadBookingKeepsInv(c, s, a);
    }
    forall b, reference ensures !Enabled(c, s, PayThroughApi(b, reference)) {
      MarkerBlocksApi(c, s, b, reference);
    }
    forall a | ActorOf(s, a).Paying? ensures ActorOf(s, a).owner {
      assert ActorOk(c, s, ActorOf(s, a));
    }
  }

  /** A completed row has its booking and its response. */
  lemma CompletedRowsAreComplete(c: Codec, s: State, id: Id)
    requires Faithful(c) && Reachable(c, s)
    requires id in s.rows && s.rows[id].state.Completed?
    ensures s.rows[id].bookingId.Some? && s.rows[id].response.Some?
  {
    ReachableInv(c, s);
    assert VersionOk(c, s, s.rows[id]);
  }

  lemma OtherStepsKeepResponses(c: Codec, s: State, step: Step, id: Id)
    requires Enabled(c, s, step) && !step.Checkpoint? && id in s.used
    requires id in s.rows && s.rows[id].bookingId.Some? && id in Do(c, s, step).rows
    ensures Do(c, s, step).rows[id].response == s.rows[id].response
    ensures Do(c, s, step).rows[id].bookingId == s.rows[id].bookingId
  {}

  /** A response, once written, is never written again. */
  lemma ResponseIsWrittenOnce(c: Codec, s: State, step: Step, id: Id)
    requires Faithful(c) && Reachable(c, s) && Enabled(c, s, step)
    requires id in s.rows && s.rows[id].response.Some? && id in Do(c, s, step).rows
    ensures Do(c, s, step).rows[id].response == s.rows[id].response
    ensures Do(c, s, step).rows[id].bookingId == s.rows[id].bookingId
  {
    ReachableInv(c, s);
    assert VersionOk(c, s, s.rows[id]);
    if step.Checkpoint? {
      assert ActorOk(c, s, ActorOf(s, step.a));
    } else {
      OtherStepsKeepResponses(c, s, step, id);
    }
  }

  /** Every answer a request gets for a key is the response first built for the booking it names. */
  lemma AnswersAreTheOriginal(c: Codec, s: State, a: nat)
    requires Faithful(c) && Reachable(c, s)
    requires ActorOf(s, a).Done? && (ActorOf(s, a).outcome.Created? || ActorOf(s, a).outcome.Replayed?)
    ensures var r := ActorOf(s, a).outcome.response;
      r.bookingId in s.bookings && s.bookings[r.bookingId].original == Some(r)
  {
    ReachableInv(c, s);
    assert ActorOk(c, s, ActorOf(s, a));
  }

  /** Two requests answered for the same booking get the same response, token included. */
  lemma ReplaysAgree(p: Platform, s: State, a: nat, b: nat)
    requires Reachable(StoredForm(p), s)
    requires ActorOf(s, a).Done? && (ActorOf(s, a).outcome.Created? || ActorOf(s, a).outcome.Replayed?)
    requires ActorOf(s, b).Done? && (ActorOf(s, b).outcome.Created? || ActorOf(s, b).outcome.Replayed?)
    requires ActorOf(s, a).outcome.response.bookingId == ActorOf(s, b).outcome.response.bookingId
    ensures ActorOf(s, a).outcome.response == ActorOf(s, b).outcome.response
  {
    StoredFormIsFaithful(p);
    AnswersAreTheOriginal(StoredForm(p), s, a);
    AnswersAreTheOriginal(StoredForm(p), s, b);
  }
}
