/**
  Provisioning the remote alert of one flight: a two-minute lease on the flight's row, a remote call
  while the lease is held, a conditional write of the result, and the deletion of an alert that came
  too late. Any number of claimants interleave; none of them crashes, and nobody cleans alerts up.
 */
module FlightAlert {
  import opened Foundations

  const STALE_MS: nat := 2 * 60 * 1000

  datatype Row = Row(alertId: Option<nat>, enabled: bool, provisioningAt: Option<nat>)

  datatype Outcome = Existing(alertId: nat) | Provisioned(alertId: nat) | InProgress | NotFound | Failed

  /** Where one call of `getOrCreateFlightAlert` stands. The claim time is its token. */
  datatype Claimant =
    | Idle
    | Claimed(at: nat)
    | Created(at: nat, alertId: nat)
    | Deleting(at: nat, alertId: nat)
    | Releasing(at: nat)
    | Done(outcome: Outcome)
  {
    predicate Unfinished() { Claimed? || Created? || Deleting? || Releasing? }
    predicate Holds(id: nat) { (Created? || Deleting?) && alertId == id }
  }

  /**
    `live` are the alerts that exist remotely, `issued` all ids ever used; `undeleted` are those
    whose deletion failed, `unreported` those whose creation was not reported to the caller.
   */
  datatype State = State(
    now: nat,
    row: Option<Row>,
    live: set<nat>,
    issued: set<nat>,
    undeleted: set<nat>,
    unreported: set<nat>,
    lastClaimAt: nat,
    claimants: map<nat, Claimant>)

  datatype Step =
    | Advance(ms: nat)
    | Claim(c: nat)
    | RemoteCreates(c: nat, id: nat)
    | RemoteCreatesUnreported(c: nat, id: nat)
    | RemoteFails(c: nat)
    | Persist(c: nat)
    | PersistThrows(c: nat)
    | Delete(c: nat)
    | DeleteFails(c: nat)
    | Release(c: nat)
    | ReleaseThrows(c: nat)

  function ClaimantOf(s: State, c: nat): Claimant { if c in s.claimants then s.claimants[c] else Idle }

  function SetClaimant(s: State, c: nat, p: Claimant): State { s.(claimants := s.claimants[c := p]) }

  /** A provisioning that began less than two minutes ago is left to its claimant. */
  predicate InProgressAt(row: Row, now: nat)
  {
    row.provisioningAt.Some? && row.provisioningAt.value + STALE_MS > now
  }

  predicate HasAlert(row: Row) { row.alertId.Some? && row.enabled }

  predicate Enabled(s: State, step: Step)
  {
    match step
    case Advance(ms) => true
    case Claim(c) => ClaimantOf(s, c).Idle?
    case RemoteCreates(c, id) => ClaimantOf(s, c).Claimed? && id !in s.issued
    case RemoteCreatesUnreported(c, id) => ClaimantOf(s, c).Claimed? && id !in s.issued
    case RemoteFails(c) => ClaimantOf(s, c).Claimed?
    case Persist(c) => ClaimantOf(s, c).Created?
    case PersistThrows(c) => ClaimantOf(s, c).Created?
    case Delete(c) => ClaimantOf(s, c).Deleting?
    case DeleteFails(c) => ClaimantOf(s, c).Deleting?
    case Release(c) => ClaimantOf(s, c).Releasing?
    case ReleaseThrows(c) => ClaimantOf(s, c).Releasing?
  }

  function Do(s: State, step: Step): State
    requires Enabled(s, step)
  {
    match step
    case Advance(ms) => s.(now := s.now + ms)
    case Claim(c) => DoClaim(s, c)
    case RemoteCreates(c, id) =>
      SetClaimant(s.(live := s.live + {id}, issued := s.issued + {id}), c, Created(ClaimantOf(s, c).at, id))
    case RemoteCreatesUnreported(c, id) =>
      SetClaimant(s.(live := s.live + {id}, issued := s.issued + {id}, unreported := s.unreported + {id}),
                  c, Releasing(ClaimantOf(s, c).at))
    case RemoteFails(c) => SetClaimant(s, c, Releasing(ClaimantOf(s, c).at))
    case Persist(c) => DoPersist(s, c)
    case PersistThrows(c) => SetClaimant(s, c, Deleting(ClaimantOf(s, c).at, ClaimantOf(s, c).alertId))
    case Delete(c) => SetClaimant(s.(live := s.live - {ClaimantOf(s, c).alertId}), c, Releasing(ClaimantOf(s, c).at))
    case DeleteFails(c) =>
      SetClaimant(s.(undeleted := s.undeleted + {ClaimantOf(s, c).alertId}), c, Releasing(ClaimantOf(s, c).at))
    case Release(c) => SetClaimant(s.(row := ReleasedRow(s.row, ClaimantOf(s, c).at)), c, Done(Failed))
    case ReleaseThrows(c) => SetClaimant(s, c, Done(Failed))
  }

  /** The claim transaction under the flight's advisory lock. */
  function DoClaim(s: State, c: nat): State
  {
    if s.row.None? then SetClaimant(s, c, Done(NotFound))
    else if HasAlert(s.row.value) then SetClaimant(s, c, Done(Existing(s.row.value.alertId.value)))
    else if InProgressAt(s.row.value, s.now) then SetClaimant(s, c, Done(InProgress))
    else SetClaimant(s.(row := Some(s.row.value.(provisioningAt := Some(s.now))), lastClaimAt := s.now), c, Claimed(s.now))
  }

  /** Only the claimant whose token is still on a row without an alert may write its result. */
  predicate MayPersist(row: Option<Row>, at: nat)
  {
    row.Some? && !row.value.enabled && row.value.provisioningAt == Some(at)
  }

  function DoPersist(s: State, c: nat): State
    requires ClaimantOf(s, c).Created?
  {
    var p := ClaimantOf(s, c);
    if MayPersist(s.row, p.at) then
      SetClaimant(s.(row := Some(Row(Some(p.alertId), true, None))), c, Done(Provisioned(p.alertId)))
    else SetClaimant(s, c, Deleting(p.at, p.alertId))
  }

  function ReleasedRow(row: Option<Row>, at: nat): Option<Row>
  {
    if row.Some? && row.value.provisioningAt == Some(at) then Some(row.value.(provisioningAt := None)) else row
  }

  // ----- runs

  /** Nobody has claimed yet; an enabled row names a live alert. */
  ghost predicate Initial(s: State)
  {
    && s.claimants == map[] && s.undeleted == {} && s.unreported == {} && s.lastClaimAt == 0 && s.issued == s.live
    && (s.row.Some? ==> s.row.value.provisioningAt.None?)
    && (s.row.Some? && s.row.value.enabled ==> s.row.value.alertId.Some?)
    && s.live == (if s.row.Some? && s.row.value.enabled && s.row.value.alertId.Some? then {s.row.value.alertId.value} else {})
  }

  ghost predicate ValidRun(s: State, run: seq<Step>)
    decreases |run|
  {
    run != [] ==> Enabled(s, run[0]) && ValidRun(Do(s, run[0]), run[1..])
  }

  ghost function After(s: State, run: seq<Step>): State
    decreases |run|
  {
    if run == [] || !Enabled(s, run[0]) then s else After(Do(s, run[0]), run[1..])
  }

  ghost predicate Reachable(s: State)
  {
    exists init, run :: Initial(init) && ValidRun(init, run) && After(init, run) == s
  }

  lemma {:induction false} AppendStep(s: State, run: seq<Step>, step: Step)
    requires ValidRun(s, run) && Enabled(After(s, run), step)
    ensures ValidRun(s, run + [step]) && After(s, run + [step]) == Do(After(s, run), step)
    decreases |run|
  {
    if run == [] {
      assert run + [step] == [step];
      assert [step][1..] == [];
    } else {
      assert (run + [step])[1..] == run[1..] + [step];
      AppendStep(Do(s, run[0]), run[1..], step);
    }
  }

  lemma Take(s: State, step: Step)
    requires Reachable(s) && Enabled(s, step)
    ensures Reachable(Do(s, step))
  {
    var init, run :| Initial(init) && ValidRun(init, run) && After(init, run) == s;
    AppendStep(init, run, step);
  }

  // ----- invariants

  /** An unfinished claimant either has its token on the row or has been superseded since. */
  predicate TokenOk(s: State, p: Claimant)
  {
    p.Unfinished() ==>
      p.at < s.lastClaimAt || (p.at == s.lastClaimAt && s.row.Some? && s.row.value.provisioningAt == Some(p.at))
  }

  predicate SharesToken(p: Claimant, q: Claimant) { p.Unfinished() && q.Unfinished() && p.at == q.at }

  predicate SharesAlert(p: Claimant, q: Claimant)
  {
    (p.Created? || p.Deleting?) && (q.Created? || q.Deleting?) && p.alertId == q.alertId
  }

  ghost predicate RowOk(s: State)
  {
    && s.lastClaimAt <= s.now
    && (s.row.Some? && s.row.value.provisioningAt.Some? ==>
          s.row.value.provisioningAt.value == s.lastClaimAt && !s.row.value.enabled)
    && (s.row.Some? && s.row.value.enabled ==> s.row.value.alertId.Some? && s.row.value.alertId.value in s.live)
  }

  ghost predicate TokensOk(s: State)
  {
    && (forall c :: c in s.claimants ==> TokenOk(s, s.claimants[c]))
    && (forall c, d :: c in s.claimants && d in s.claimants && c != d ==> !SharesToken(s.claimants[c], s.claimants[d]))
  }

  /** What a claimant says about alerts is so. */
  predicate AlertOk(s: State, p: Claimant)
  {
    && (p.Created? || p.Deleting? ==> p.alertId in s.issued)
    && (p.Created? ==> p.alertId in s.live)
    && ((p.Created? || p.Deleting?) && s.row.Some? && s.row.value.enabled ==> s.row.value.alertId != Some(p.alertId))
    && (p.Done? && (p.outcome.Existing? || p.outcome.Provisioned?) ==>
          s.row.Some? && HasAlert(s.row.value) && s.row.value.alertId == Some(p.outcome.alertId))
  }

  ghost predicate AlertsOk(s: State)
  {
    && s.live <= s.issued
    && (forall c :: c in s.claimants ==> AlertOk(s, s.claimants[c]))
    && (forall c, d :: c in s.claimants && d in s.claimants && c != d ==> !SharesAlert(s.claimants[c], s.claimants[d]))
  }

  /** An unfinished claimant has the alert in hand. */
  ghost predicate Held(s: State, id: nat)
  {
    exists c :: c in s.claimants && s.claimants[c].Holds(id)
  }

  ghost predicate Accounted(s: State, id: nat)
  {
    || (s.row.Some? && s.row.value.enabled && s.row.value.alertId == Some(id))
    || Held(s, id)
    || id in s.undeleted
    || id in s.unreported
  }

  ghost predicate Inv(s: State)
  {
    RowOk(s) && TokensOk(s) && AlertsOk(s) && forall id :: id in s.live ==> Accounted(s, id)
  }

  // ----- one claimant moves

  /** Everybody but `c` is where they were. */
  predicate Moves(s: State, t: State, c: nat, p: Claimant)
  {
    t.claimants == s.claimants[c := p]
  }

  lemma TokensStay(s: State, t: State, c: nat, p: Claimant)
    requires TokensOk(s) && Moves(s, t, c, p) && TokenOk(t, p)
    requires forall d :: d in s.claimants && d != c && TokenOk(s, s.claimants[d]) ==> TokenOk(t, s.claimants[d])
    requires p.Unfinished() ==>
      (ClaimantOf(s, c).Unfinished() && p.at == ClaimantOf(s, c).at)
      || forall d :: d in s.claimants && d != c && s.claimants[d].Unfinished() ==> s.claimants[d].at != p.at
    ensures TokensOk(t)
  {
    forall d | d in t.claimants ensures TokenOk(t, t.claimants[d]) {
      if d != c { assert TokenOk(s, s.claimants[d]); }
    }
    forall d, e | d in t.claimants && e in t.claimants && d != e ensures !SharesToken(t.claimants[d], t.claimants[e]) {
      if d != c && e != c { assert !SharesToken(s.claimants[d], s.claimants[e]); }
      else if d == c { if c in s.claimants { assert !SharesToken(s.claimants[c], s.claimants[e]); } }
      else { if c in s.claimants { assert !SharesToken(s.claimants[d], s.claimants[c]); } }
    }
  }

  lemma AlertsStay(s: State, t: State, c: nat, p: Claimant)
    requires AlertsOk(s) && Moves(s, t, c, p) && AlertOk(t, p) && t.live <= t.issued
    requires forall d :: d in s.claimants && d != c && AlertOk(s, s.claimants[d]) ==> AlertOk(t, s.claimants[d])
    requires p.Created? || p.Deleting? ==> ClaimantOf(s, c).Holds(p.alertId) || p.alertId !in s.issued
    ensures AlertsOk(t)
  {
    forall d | d in t.claimants ensures AlertOk(t, t.claimants[d]) {
      if d != c { assert AlertOk(s, s.claimants[d]); }
    }
    forall d, e | d in t.claimants && e in t.claimants && d != e ensures !SharesAlert(t.claimants[d], t.claimants[e]) {
      if d != c { assert AlertOk(s, s.claimants[d]); }
      if e != c { assert AlertOk(s, s.claimants[e]); }
      if d != c && e != c { assert !SharesAlert(s.claimants[d], s.claimants[e]); }
      else if d == c { if c in s.claimants { assert !SharesAlert(s.claimants[c], s.claimants[e]); } }
      else { if c in s.claimants { assert !SharesAlert(s.claimants[d], s.claimants[c]); } }
    }
  }

  /** The alerts stay accounted for, if the one `c` held still is. */
  lemma AccountsStay(s: State, t: State, c: nat, p: Claimant)
    requires (forall id :: id in s.live ==> Accounted(s, id)) && Moves(s, t, c, p)
    requires forall id :: id in t.live && id !in s.live ==> Accounted(t, id)
    requires s.undeleted <= t.undeleted && s.unreported <= t.unreported
    requires s.row.Some? && s.row.value.enabled ==> t.row.Some? && t.row.value.enabled && t.row.value.alertId == s.row.value.alertId
    requires forall id :: id in t.live && ClaimantOf(s, c).Holds(id) ==> Accounted(t, id)
    ensures forall id :: id in t.live ==> Accounted(t, id)
  {
    forall id | id in t.live ensures Accounted(t, id) {
      if id in s.live {
        assert Accounted(s, id);
        if Held(s, id) {
          var d :| d in s.claimants && s.claimants[d].Holds(id);
          if d != c { assert t.claimants[d].Holds(id); }
        }
      }
    }
  }

  // ----- every step keeps the invariant

  lemma AdvanceKeepsInv(s: State, ms: nat)
    requires Inv(s)
    ensures Inv(s.(now := s.now + ms))
  {
    var t := s.(now := s.now + ms);
    assert forall c :: c in t.claimants ==> TokenOk(s, t.claimants[c]) && AlertOk(s, t.claimants[c]);
    forall id | id in t.live ensures Accounted(t, id) {
      assert Accounted(s, id);
      if Held(s, id) { assert Held(t, id); }
    }
  }

  lemma ClaimKeepsInv(s: State, c: nat)
    requires Inv(s) && Enabled(s, Claim(c))
    ensures Inv(DoClaim(s, c))
  {
    var t := DoClaim(s, c);
    var p := t.claimants[c];
    if p.Claimed? {
      forall d | d in s.claimants && d != c && s.claimants[d].Unfinished() ensures s.claimants[d].at != p.at {
        assert TokenOk(s, s.claimants[d]);
      }
    }
    TokensStay(s, t, c, p);
    AlertsStay(s, t, c, p);
    AccountsStay(s, t, c, p);
  }

  lemma RemoteStepKeepsInv(s: State, step: Step)
    requires Inv(s) && Enabled(s, step) && (step.RemoteCreates? || step.RemoteCreatesUnreported? || step.RemoteFails?)
    ensures Inv(Do(s, step))
  {
    var t := Do(s, step);
    var p := t.claimants[step.c];
    assert TokenOk(s, s.claimants[step.c]);
    TokensStay(s, t, step.c, p);
    AlertsStay(s, t, step.c, p);
    if step.RemoteCreates? { assert t.claimants[step.c].Holds(step.id); }
    AccountsStay(s, t, step.c, p);
  }

  /** A claimant whose token is on the row is alone with it, so its result disturbs nobody's. */
  lemma PersistKeepsInv(s: State, c: nat)
    requires Inv(s) && Enabled(s, Persist(c))
    ensures Inv(DoPersist(s, c))
  {
    var t := DoPersist(s, c);
    var p := t.claimants[c];
    assert TokenOk(s, s.claimants[c]) && AlertOk(s, s.claimants[c]);
    forall d | d in s.claimants && d != c && TokenOk(s, s.claimants[d]) ensures TokenOk(t, s.claimants[d]) {
      assert !SharesToken(s.claimants[c], s.claimants[d]);
    }
    forall d | d in s.claimants && d != c && AlertOk(s, s.claimants[d]) ensures AlertOk(t, s.claimants[d]) {
      assert !SharesAlert(s.claimants[c], s.claimants[d]);
    }
    TokensStay(s, t, c, p);
    AlertsStay(s, t, c, p);
    if p.Deleting? { assert t.claimants[c].Holds(p.alertId); }
    AccountsStay(s, t, c, p);
  }

  lemma DeleteStepKeepsInv(s: State, step: Step)
    requires Inv(s) && Enabled(s, step) && (step.PersistThrows? || step.Delete? || step.DeleteFails?)
    ensures Inv(Do(s, step))
  {
    var t := Do(s, step);
    var p := t.claimants[step.c];
    assert TokenOk(s, s.claimants[step.c]) && AlertOk(s, s.claimants[step.c]);
    forall d | d in s.claimants && d != step.c && AlertOk(s, s.claimants[d]) ensures AlertOk(t, s.claimants[d]) {
      assert !SharesAlert(s.claimants[step.c], s.claimants[d]);
    }
    TokensStay(s, t, step.c, p);
    AlertsStay(s, t, step.c, p);
    if step.PersistThrows? { assert t.claimants[step.c].Holds(p.alertId); }
    AccountsStay(s, t, step.c, p);
  }

  lemma ReleaseStepKeepsInv(s: State, step: Step)
    requires Inv(s) && Enabled(s, step) && (step.Release? || step.ReleaseThrows?)
    ensures Inv(Do(s, step))
  {
    var t := Do(s, step);
    var p := t.claimants[step.c];
    assert TokenOk(s, s.claimants[step.c]);
    forall d | d in s.claimants && d != step.c && TokenOk(s, s.claimants[d]) ensures TokenOk(t, s.claimants[d]) {
      assert !SharesToken(s.claimants[step.c], s.claimants[d]);
    }
    TokensStay(s, t, step.c, p);
    AlertsStay(s, t, step.c, p);
    AccountsStay(s, t, step.c, p);
  }

  lemma StepKeepsInv(s: State, step: Step)
    requires Inv(s) && Enabled(s, step)
    ensures Inv(Do(s, step))
  {
    match step
    case Advance(ms) => AdvanceKeepsInv(s, ms);
    case Claim(c) => ClaimKeepsInv(s, c);
    case Persist(c) => PersistKeepsInv(s, c);
    case Release(c) => ReleaseStepKeepsInv(s, step);
    case ReleaseThrows(c) => ReleaseStepKeepsInv(s, step);
    case PersistThrows(c) => DeleteStepKeepsInv(s, step);
    case Delete(c) => DeleteStepKeepsInv(s, step);
    case DeleteFails(c) => DeleteStepKeepsInv(s, step);
    case _ => RemoteStepKeepsInv(s, step);
  }

  lemma {:induction false} RunKeepsInv(s: State, run: seq<Step>)
    requires Inv(s) && ValidRun(s, run)
    ensures Inv(After(s, run))
    decreases |run|
  {
    if run != [] {
      StepKeepsInv(s, run[0]);
      RunKeepsInv(Do(s, run[0]), run[1..]);
    }
  }

  lemma ReachableInv(s: State)
    requires Reachable(s)
    ensures Inv(s)
  {
    var init, run :| Initial(init) && ValidRun(init, run) && After(init, run) == s;
    RunKeepsInv(init, run);
  }

  // ----- what holds of every run

  /** Every alert that exists is the row's own, in the hands of an unfinished claimant, or one whose deletion or report failed. */
  lemma LiveAlertsAreAccountedFor(s: State, id: nat)
    requires Reachable(s) && id in s.live
    ensures Accounted(s, id)
  {
    ReachableInv(s);
  }

  /** Once everybody has finished, and no remote call has gone wrong, exactly the row's alert is left. */
  lemma NothingLeftBehind(s: State)
    requires Reachable(s) && s.undeleted == {} && s.unreported == {}
    requires forall c :: c in s.claimants ==> !s.claimants[c].Unfinished()
    ensures s.live == if s.row.Some? && HasAlert(s.row.value) then {s.row.value.alertId.value} else {}
  {
    ReachableInv(s);
    forall id | id in s.live ensures s.row.Some? && HasAlert(s.row.value) && s.row.value.alertId.value == id {
      assert Accounted(s, id);
    }
  }

  /** At most one unfinished claimant has its token on the row; any other has been superseded for good. */
  lemma OneHolder(s: State, c: nat, d: nat)
    requires Reachable(s) && c in s.claimants && d in s.claimants && c != d
    requires s.claimants[c].Unfinished() && s.claimants[d].Unfinished()
    requires s.row.Some? && s.row.value.provisioningAt == Some(s.claimants[c].at)
    ensures s.claimants[d].at < s.claimants[c].at
    ensures !MayPersist(s.row, s.claimants[d].at) && ReleasedRow(s.row, s.claimants[d].at) == s.row
  {
    ReachableInv(s);
    assert TokenOk(s, s.claimants[c]) && TokenOk(s, s.claimants[d]);
    assert !SharesToken(s.claimants[c], s.claimants[d]);
  }

  /** A row with an alert never changes again: no claimant, however late, overwrites the winner. */
  lemma WinnerStays(s: State, step: Step)
    requires Reachable(s) && Enabled(s, step) && s.row.Some? && s.row.value.enabled
    ensures Do(s, step).row == s.row
    ensures s.row.value.alertId.Some? && s.row.value.alertId.value in Do(s, step).live
  {
    ReachableInv(s);
    StepKeepsInv(s, step);
  }

  /** Everybody who is given an alert is given the same one, and it is live. */
  lemma AnswersAgree(s: State, c: nat)
    requires Reachable(s) && c in s.claimants && s.claimants[c].Done?
    requires s.claimants[c].outcome.Existing? || s.claimants[c].outcome.Provisioned?
    ensures s.row.Some? && s.row.value.alertId == Some(s.claimants[c].outcome.alertId)
    ensures s.claimants[c].outcome.alertId in s.live
  {
    ReachableInv(s);
    assert AlertOk(s, s.claimants[c]);
  }

  /** A flight without an alert can always be claimed again, at the latest two minutes from now. */
  lemma ClaimableWithinTwoMinutes(s: State, c: nat)
    requires Reachable(s) && s.row.Some? && !s.row.value.enabled && ClaimantOf(s, c).Idle?
    ensures ClaimantOf(DoClaim(s.(now := s.now + 120_000), c), c) == Claimed(s.now + 120_000)
  {
    ReachableInv(s);
  }

  /** A lease is stolen only when two full minutes have passed since the claim. */
  lemma LeaseIsRespected(s: State, c: nat)
    requires Reachable(s) && Enabled(s, Claim(c)) && ClaimantOf(DoClaim(s, c), c).Claimed?
    ensures s.row.Some? && !HasAlert(s.row.value)
    ensures forall d :: d in s.claimants && s.claimants[d].Unfinished() && s.row.value.provisioningAt == Some(s.claimants[d].at) ==>
      s.claimants[d].at + 120_000 <= s.now
  {}
}
