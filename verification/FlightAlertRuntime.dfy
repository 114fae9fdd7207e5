/**
  The alert service itself: claim, create remotely, persist, and on any failure delete and release.
  Other claimants may be anywhere in their own work when a method starts; each method's statements
  are then carried out without a break, and each is proved to be a step of the machine.
 */
module FlightAlertRuntime {
  import opened Foundations
  import opened FlightAlert

  /** How the remote creation ends. */
  datatype RemoteResult = Reported(id: nat) | Unreported(id: nat) | Refused

  datatype AlertError = FlightRecordNotFound | ProvisioningInProgress | ProvisioningFailed

  datatype Claim = ExistingAlert(alertId: nat) | ClaimedAt(at: nat)

  function ErrorOf(outcome: Outcome): AlertError
  {
    match outcome
    case NotFound => FlightRecordNotFound
    case InProgress => ProvisioningInProgress
    case _ => ProvisioningFailed
  }

  /** No alert yet, and nobody has been at it for two minutes. */
  predicate MayClaim(flight: Option<Row>, now: nat)
  {
    && flight.Some? && !(flight.value.enabled && flight.value.alertId.Some?)
    && (flight.value.provisioningAt.Some? ==> flight.value.provisioningAt.value + 120_000 <= now)
  }

  class FlightAlertService {
    var clock: nat
    var flight: Option<Row>
    var live: set<nat>
    ghost var state: State

    ghost predicate Valid()
      reads this
    {
      Reachable(state) && state.now == clock && state.row == flight && state.live == live
    }

    constructor (flight: Option<Row>)
      requires flight.Some? ==> flight.value.provisioningAt.None? && (flight.value.enabled ==> flight.value.alertId.Some?)
      ensures Valid() && this.flight == flight && state.claimants == map[] && state.issued == live
    {
      this.flight := flight;
      clock := 0;
      live := if flight.Some? && flight.value.enabled && flight.value.alertId.Some? then {flight.value.alertId.value} else {};
      new;
      state := State(0, flight, live, live, {}, {}, 0, map[]);
      assert Initial(state) && ValidRun(state, []) && After(state, []) == state;
    }

    method Wait(ms: nat)
      requires Valid()
      modifies this
      ensures Valid() && clock == old(clock) + ms && flight == old(flight) && live == old(live)
      ensures state == old(state).(now := clock)
    {
      Take(state, Advance(ms));
      clock := clock + ms;
      state := state.(now := clock);
    }

    /** The claim transaction. */
    method ClaimFlight(c: nat) returns (claim: Result<Claim, AlertError>)
      requires Valid() && ClaimantOf(state, c).Idle?
      modifies this
      ensures Valid() && clock == old(clock) && live == old(live) && state.issued == old(state).issued
      ensures state == DoClaim(old(state), c)
      ensures claim ==
        if old(flight).None? then Err(FlightRecordNotFound)
        else if HasAlert(old(flight).value) then Ok(ExistingAlert(old(flight).value.alertId.value))
        else if old(flight).value.provisioningAt.Some? && clock < old(flight).value.provisioningAt.value + 120_000 then Err(ProvisioningInProgress)
        else Ok(ClaimedAt(clock))
      ensures flight ==
        if claim.Ok? && claim.value.ClaimedAt? then Some(old(flight).value.(provisioningAt := Some(clock))) else old(flight)
    {
      Take(state, FlightAlert.Step.Claim(c));
      state := DoClaim(state, c);
      if flight.None? {
        return Err(FlightRecordNotFound);
      }
      if flight.value.alertId.Some? && flight.value.enabled {
        return Ok(ExistingAlert(flight.value.alertId.value));
      }
      if flight.value.provisioningAt.Some? && flight.value.provisioningAt.value > clock - STALE_MS {
        return Err(ProvisioningInProgress);
      }
      flight := Some(flight.value.(provisioningAt := Some(clock)));
      claim := Ok(ClaimedAt(clock));
    }

    /** The conditional write of a created alert, by a claimant that may have been superseded meanwhile. */
    method Persist(c: nat, at: nat, id: nat, throws: bool) returns (persisted: bool)
      requires Valid() && ClaimantOf(state, c) == Created(at, id)
      modifies this
      ensures Valid() && clock == old(clock) && live == old(live) && state.issued == old(state).issued
      ensures persisted <==> !throws && MayPersist(old(flight), at)
      ensures flight == if persisted then Some(Row(Some(id), true, None)) else old(flight)
      ensures ClaimantOf(state, c) == if persisted then Done(Provisioned(id)) else Deleting(at, id)
      ensures forall d :: d != c ==> ClaimantOf(state, d) == ClaimantOf(old(state), d)
    {
      if throws {
        Take(state, PersistThrows(c));
        state := SetClaimant(state, c, Deleting(at, id));
        persisted := false;
      } else {
        Take(state, FlightAlert.Step.Persist(c));
        state := DoPersist(state, c);
        persisted := flight.Some? && !flight.value.enabled && flight.value.provisioningAt == Some(at);
        if persisted {
          flight := Some(Row(Some(id), true, None));
        }
      }
    }

    /** Compensation: an alert that could not be persisted is deleted, if the provider lets it. */
    method DisableFlightAlert(c: nat, at: nat, id: nat, deletes: bool)
      requires Valid() && ClaimantOf(state, c) == Deleting(at, id)
      modifies this
      ensures Valid() && clock == old(clock) && flight == old(flight) && state.issued == old(state).issued
      ensures live == if deletes then old(live) - {id} else old(live)
      ensures ClaimantOf(state, c) == FlightAlert.Claimant.Releasing(at)
      ensures forall d :: d != c ==> ClaimantOf(state, d) == ClaimantOf(old(state), d)
    {
      if deletes {
        Take(state, Delete(c));
        live := live - {id};
        state := Do(state, Delete(c));
      } else {
        Take(state, DeleteFails(c));
        state := Do(state, DeleteFails(c));
      }
    }

    /** The claim is released only by the token it was taken with; a failure to release is swallowed. */
    method ReleaseFlightAlertClaim(c: nat, at: nat, throws: bool)
      requires Valid() && ClaimantOf(state, c) == Releasing(at)
      modifies this
      ensures Valid() && clock == old(clock) && live == old(live) && state.issued == old(state).issued
      ensures flight == if throws then old(flight) else ReleasedRow(old(flight), at)
      ensures ClaimantOf(state, c) == Done(Failed)
      ensures forall d :: d != c ==> ClaimantOf(state, d) == ClaimantOf(old(state), d)
    {
      if throws {
        Take(state, ReleaseThrows(c));
        state := Do(state, ReleaseThrows(c));
      } else {
        Take(state, FlightAlert.Step.Release(c));
        state := Do(state, FlightAlert.Step.Release(c));
        if flight.Some? && flight.value.provisioningAt == Some(at) {
          flight := Some(flight.value.(provisioningAt := None));
        }
      }
    }

    /** The remote call of a claimant. */
    method CreateFlightAlert(c: nat, at: nat, remote: RemoteResult) returns (created: Option<nat>)
      requires Valid() && ClaimantOf(state, c) == Claimed(at)
      requires !remote.Refused? ==> remote.id !in state.issued
      modifies this
      ensures Valid() && clock == old(clock) && flight == old(flight)
      ensures created == if remote.Reported? then Some(remote.id) else None
      ensures live == if remote.Refused? then old(live) else old(live) + {remote.id}
      ensures ClaimantOf(state, c) == if created.Some? then Created(at, created.value) else Releasing(at)
      ensures forall d :: d != c ==> ClaimantOf(state, d) == ClaimantOf(old(state), d)
    {
      match remote {
        case Reported(id) =>
          Take(state, RemoteCreates(c, id));
          state := Do(state, RemoteCreates(c, id));
          live := live + {id};
          created := Some(id);
        case Unreported(id) =>
          Take(state, RemoteCreatesUnreported(c, id));
          state := Do(state, RemoteCreatesUnreported(c, id));
          live := live + {id};
          created := None;
        case Refused =>
          Take(state, RemoteFails(c));
          state := Do(state, RemoteFails(c));
          created := None;
      }
    }

    /**
      `getOrCreateFlightAlert`. The answer is the alert the row names, whoever made it; a failure
      leaves the row as it was, and the created alert, if any, is deleted again.
     */
    method GetOrCreateFlightAlert(c: nat, remote: RemoteResult, persistThrows: bool, deletes: bool, releaseThrows: bool)
      returns (result: Result<nat, AlertError>)
      requires Valid() && ClaimantOf(state, c).Idle?
      requires !remote.Refused? ==> remote.id !in state.issued
      modifies this
      ensures Valid() && clock == old(clock) && ClaimantOf(state, c).Done?
      ensures forall d :: d != c ==> ClaimantOf(state, d) == ClaimantOf(old(state), d)
      ensures result.Ok? ==> flight.Some? && flight.value.enabled && flight.value.alertId == Some(result.value)
      // without a claim nothing changes
      ensures old(flight).None? ==> result == Err(FlightRecordNotFound)
      ensures old(flight).Some? && HasAlert(old(flight).value) ==> result == Ok(old(flight).value.alertId.value)
      ensures old(flight).Some? && !HasAlert(old(flight).value) && !MayClaim(old(flight), clock) ==> result == Err(ProvisioningInProgress)
      ensures !MayClaim(old(flight), clock) ==> flight == old(flight) && live == old(live)
      // a claim ends with the new alert in the row, or with the row as it was and the alert, if deletable, gone again
      ensures MayClaim(old(flight), clock) && remote.Reported? && !persistThrows ==>
        result == Ok(remote.id) && flight == Some(Row(Some(remote.id), true, None)) && live == old(live) + {remote.id}
      ensures MayClaim(old(flight), clock) && (!remote.Reported? || persistThrows) ==>
        && result == Err(ProvisioningFailed)
        && flight == Some(old(flight).value.(provisioningAt := if releaseThrows then Some(clock) else None))
        && live == (if remote.Refused? || (remote.Reported? && deletes) then old(live) else old(live) + {remote.id})
    {
      EnabledRowsHaveAlerts(state);
      var claim := ClaimFlight(c);
      if claim.Err? {
        return Err(claim.error);
      }
      if claim.value.ExistingAlert? {
        return Ok(claim.value.alertId);
      }
      ghost var issued := state.issued;
      IssuedCoversLive(state);
      var at := claim.value.at;
      var created := CreateFlightAlert(c, at, remote);
      if created.Some? {
        var persisted := Persist(c, at, created.value, persistThrows);
        if persisted {
          return Ok(created.value);
        }
        DisableFlightAlert(c, at, created.value, deletes);
      }
      ReleaseFlightAlertClaim(c, at, releaseThrows);
      result := Err(ProvisioningFailed);
    }
  }

  lemma EnabledRowsHaveAlerts(s: State)
    requires Reachable(s)
    ensures s.row.Some? && s.row.value.enabled ==> s.row.value.alertId.Some?
  {
    ReachableInv(s);
  }

  lemma IssuedCoversLive(s: State)
    requires Reachable(s)
    ensures s.live <= s.issued
  {
    ReachableInv(s);
  }
}
