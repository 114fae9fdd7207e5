/**
  What webhooks do to one flight. The flight's row is locked for the whole of a webhook's
  transaction, so deliveries take effect one after the other; a delivery may fail as a whole, and
  any delivery may be repeated. A payload is known by its alert, its event and all of its flight data,
  `rest` being those fields that play no other part here.
 */
module FlightStatus {
  import opened Foundations

  const MIN_CUSTOMER_DELAY_MINUTES: int := 30
  const MIN_OPERATIONAL_DELAY_MINUTES: int := 10
  const MIN_DELAY_CHANGE_MINUTES: int := 10

  datatype Status = Scheduled | Departed | EnRoute | Landed | Cancelled | Diverted | Unknown

  datatype EventCode =
    | EvFiled | EvDeparture | EvArrival | EvOut | EvOff | EvOn | EvIn | EvDiverted | EvCancelled
    | EvPositionOnlyArrival | EvPositionOnlyDeparture | EvFruArrival
    | EvNonairportArrival | EvNonairportDeparture | EvNonairportFiled
    | EvMinutesOut | EvPowerOn | EvChange

  /** A field of the payload: missing, or there with or without a value. */
  datatype Field<+T> = Missing | Present(value: Option<T>)
  {
    function Value(): Option<T> { if Present? then value else None }
  }

  /** Times in milliseconds. */
  datatype FlightInfo = FlightInfo(
    cancelled: Option<bool>,
    scheduledIn: Field<int>,
    scheduledOn: Field<int>,
    estimatedIn: Field<int>,
    estimatedOn: Field<int>,
    actualIn: Field<int>,
    actualOn: Field<int>,
    gate: Field<string>,
    terminal: Field<string>,
    rest: string)

  datatype Payload = Payload(alertId: nat, event: EventCode, flight: FlightInfo)

  datatype Flight = Flight(
    status: Status,
    delayMinutes: Option<int>,
    arrivalGate: Option<string>,
    arrivalTerminal: Option<string>,
    scheduledArrival: Option<int>,
    estimatedArrival: Option<int>,
    actualArrival: Option<int>)

  datatype Notification =
    | FlightCancelled
    | FlightReinstated
    | FlightDiverted
    | FlightDeparted
    | FlightArrived
    | FlightDelayed(minutes: int, toCustomer: bool)
    | FlightDelayRecovered(recovered: int, toCustomer: bool)
    | GateChanged(gate: Option<string>)
    | TerminalChanged(terminal: Option<string>)
    | ScheduleConflict

  predicate IsArrivalEvent(e: EventCode) { e.EvArrival? || e.EvOn? || e.EvIn? }

  predicate IsDepartureEvent(e: EventCode) { e.EvDeparture? || e.EvOut? || e.EvOff? }

  /** `mapEventCodeToStatus`. */
  function StatusAfter(event: EventCode, current: Status, cancelled: Option<bool>): Status
  {
    if current.Landed? || current.Diverted? then current
    else if current.Cancelled? then
      if event.EvChange? && cancelled == Some(false) then Scheduled else current
    else if event.EvCancelled? then Cancelled
    else if event.EvDiverted? then Diverted
    else if IsArrivalEvent(event) then Landed
    else if IsDepartureEvent(event) then Departed
    else current
  }

  function Or<T>(a: Option<T>, b: Option<T>): Option<T> { if a.Some? then a else b }

  function CurrentArrival(info: FlightInfo): Option<int>
  {
    Or(Or(info.actualIn.Value(), info.actualOn.Value()), Or(info.estimatedIn.Value(), info.estimatedOn.Value()))
  }

  /** JavaScript's `Math.round` of a quotient by a minute: halves go up, on both sides of zero. */
  function RoundToMinutes(ms: int): int { (2 * ms + 60000) / 120000 }

  /** `resolveArrivalDelayMinutes`. */
  function ArrivalDelay(info: FlightInfo, previous: Flight): Option<int>
  {
    var current :=
      if info.actualIn.Present? || info.actualOn.Present? || info.estimatedIn.Present? || info.estimatedOn.Present?
      then CurrentArrival(info)
      else Or(previous.actualArrival, previous.estimatedArrival);
    var scheduled :=
      if info.scheduledIn.Present? || info.scheduledOn.Present?
      then Or(info.scheduledIn.Value(), info.scheduledOn.Value())
      else previous.scheduledArrival;
    if current.None? || scheduled.None? then None else Some(RoundToMinutes(current.value - scheduled.value))
  }

  predicate HasDelayUpdate(info: FlightInfo)
  {
    || info.scheduledIn.Present? || info.scheduledOn.Present? || info.estimatedIn.Present?
    || info.estimatedOn.Present? || info.actualIn.Present? || info.actualOn.Present?
  }

  /** `buildFlightUpdateData`, as far as later events depend on it. */
  function UpdatedFlight(f: Flight, p: Payload): Flight
  {
    var info := p.flight;
    Flight(
      StatusAfter(p.event, f.status, info.cancelled),
      if HasDelayUpdate(info) then ArrivalDelay(info, f) else f.delayMinutes,
      if info.gate.Present? then info.gate.value else f.arrivalGate,
      if info.terminal.Present? then info.terminal.value else f.arrivalTerminal,
      Or(Or(info.scheduledIn.Value(), info.scheduledOn.Value()), f.scheduledArrival),
      Or(Or(info.estimatedIn.Value(), info.estimatedOn.Value()), f.estimatedArrival),
      Or(Or(info.actualIn.Value(), info.actualOn.Value()), f.actualArrival))
  }

  /** `buildStatusNotification`. */
  function StatusNotification(p: Payload, previous: Status, next: Status): Option<Notification>
  {
    if p.event.EvCancelled? && next.Cancelled? && !previous.Cancelled? then Some(FlightCancelled)
    else if p.event.EvChange? && p.flight.cancelled == Some(false) && next.Scheduled? && previous.Cancelled? then Some(FlightReinstated)
    else if p.event.EvDiverted? && next.Diverted? && !previous.Diverted? then Some(FlightDiverted)
    else if next.Departed? && !previous.Departed? && IsDepartureEvent(p.event) then Some(FlightDeparted)
    else if next.Landed? && !previous.Landed? && IsArrivalEvent(p.event) then Some(FlightArrived)
    else None
  }

  function Abs(x: int): int { if x < 0 then -x else x }

  function DelayNotification(previous: Option<int>, delay: Option<int>): Option<Notification>
  {
    if delay.None? then None
    else
      var before := if previous.Some? then previous.value else 0;
      if previous.Some? && Abs(delay.value - before) < MIN_DELAY_CHANGE_MINUTES then None
      else if delay.value >= MIN_OPERATIONAL_DELAY_MINUTES then
        Some(FlightDelayed(delay.value, delay.value >= MIN_CUSTOMER_DELAY_MINUTES || before >= MIN_CUSTOMER_DELAY_MINUTES))
      else if before < MIN_OPERATIONAL_DELAY_MINUTES then None
      else Some(FlightDelayRecovered(if delay.value < 0 then 0 else delay.value, before >= MIN_CUSTOMER_DELAY_MINUTES))
  }

  function AsList(n: Option<Notification>): seq<Notification> { if n.Some? then [n.value] else [] }

  function ChangeNotifications(info: FlightInfo, previous: Flight): seq<Notification>
  {
    AsList(DelayNotification(previous.delayMinutes, ArrivalDelay(info, previous)))
    + (if info.gate.Present? && info.gate.value != previous.arrivalGate then [GateChanged(info.gate.value)] else [])
    + (if info.terminal.Present? && info.terminal.value != previous.arrivalTerminal then [TerminalChanged(info.terminal.value)] else [])
  }

  /** `buildNotifications`: one status notification, or, for a change, whatever details have changed. */
  function Notifications(f: Flight, p: Payload): seq<Notification>
  {
    var status := StatusNotification(p, f.status, StatusAfter(p.event, f.status, p.flight.cancelled));
    if status.Some? then [status.value]
    else if p.event.EvChange? then ChangeNotifications(p.flight, f)
    else []
  }

  /** `resolveExpectedArrivalTime`. */
  function ExpectedArrival(info: FlightInfo, f: Flight): Option<int>
  {
    Or(Or(CurrentArrival(info), Or(info.scheduledIn.Value(), info.scheduledOn.Value())),
       Or(Or(f.actualArrival, f.estimatedArrival), f.scheduledArrival))
  }

  /** The bookings' windows follow an expected arrival unless the flight is off or elsewhere. */
  predicate MovesBookings(f: Flight, p: Payload)
  {
    var next := StatusAfter(p.event, f.status, p.flight.cancelled);
    ExpectedArrival(p.flight, f).Some? && !next.Cancelled? && !next.Diverted?
  }

  /** Everything a payload makes known; `conflicts` says whether the moved bookings run into others. */
  function Announced(f: Flight, p: Payload, conflicts: bool): seq<Notification>
  {
    Notifications(f, p) + (if conflicts && MovesBookings(f, p) then [ScheduleConflict] else [])
  }

  // ----- deliveries

  /** The flight, the payloads applied so far, and every notification written, in order. */
  datatype State = State(flight: Flight, applied: seq<Payload>, sent: seq<Notification>)

  /** One delivery; its transaction may fail and leave nothing. */
  datatype Delivery = Delivery(payload: Payload, fails: bool, conflicts: bool)

  function Handle(s: State, p: Payload, conflicts: bool): State
  {
    if p in s.applied then s
    else State(UpdatedFlight(s.flight, p), s.applied + [p], s.sent + Announced(s.flight, p, conflicts))
  }

  function Deliver(s: State, d: Delivery): State { if d.fails then s else Handle(s, d.payload, d.conflicts) }

  function After(s: State, deliveries: seq<Delivery>): State
    decreases |deliveries|
  {
    if deliveries == [] then s else After(Deliver(s, deliveries[0]), deliveries[1..])
  }

  function Start(f: Flight): State { State(f, [], []) }

  // ----- counting

  function Count(sent: seq<Notification>, n: Notification): nat
  {
    if sent == [] then 0 else (if sent[|sent| - 1] == n then 1 else 0) + Count(sent[..|sent| - 1], n)
  }

  lemma {:induction false} CountAppend(a: seq<Notification>, b: seq<Notification>, n: Notification)
    ensures Count(a + b, n) == Count(a, n) + Count(b, n)
  {
    if b == [] {
      assert a + b == a;
    } else {
      assert (a + b)[..|a + b| - 1] == a + b[..|b| - 1];
      CountAppend(a, b[..|b| - 1], n);
    }
  }

  predicate IsStatus(n: Notification)
  {
    n.FlightCancelled? || n.FlightReinstated? || n.FlightDiverted? || n.FlightDeparted? || n.FlightArrived?
  }

  lemma {:induction false} CountOfDetails(list: seq<Notification>, n: Notification)
    requires IsStatus(n) && forall i :: 0 <= i < |list| ==> !IsStatus(list[i])
    ensures Count(list, n) == 0
  {
    if list != [] { CountOfDetails(list[..|list| - 1], n); }
  }

  /** A status notification first, where there is one, and nothing but details after it. */
  predicate LedBy(all: seq<Notification>, status: Option<Notification>)
  {
    && (status.Some? ==> all != [] && all[0] == status.value && IsStatus(status.value))
    && forall i :: 0 <= i < |all| && (status.None? || i > 0) ==> !IsStatus(all[i])
  }

  lemma ChangesAreDetails(info: FlightInfo, previous: Flight)
    ensures forall i :: 0 <= i < |ChangeNotifications(info, previous)| ==> !IsStatus(ChangeNotifications(info, previous)[i])
  {
    var delay := AsList(DelayNotification(previous.delayMinutes, ArrivalDelay(info, previous)));
    assert forall i :: 0 <= i < |delay| ==> !IsStatus(delay[i]);
  }

  lemma AnnouncedIsLed(f: Flight, p: Payload, conflicts: bool)
    ensures LedBy(Announced(f, p, conflicts), StatusNotification(p, f.status, StatusAfter(p.event, f.status, p.flight.cancelled)))
  {
    ChangesAreDetails(p.flight, f);
  }

  lemma CountOfLed(all: seq<Notification>, status: Option<Notification>, n: Notification)
    requires IsStatus(n) && LedBy(all, status)
    ensures Count(all, n) == if status == Some(n) then 1 else 0
  {
    if status.Some? {
      assert all == [all[0]] + all[1..] && [all[0]][..0] == [];
      CountAppend([all[0]], all[1..], n);
      CountOfDetails(all[1..], n);
    } else {
      CountOfDetails(all, n);
    }
  }

  /** The balance between the status and what has been announced. */
  ghost predicate Balanced(s: State)
  {
    && Count(s.sent, FlightCancelled) == Count(s.sent, FlightReinstated) + (if s.flight.status.Cancelled? then 1 else 0)
    && Count(s.sent, FlightArrived) == (if s.flight.status.Landed? then 1 else 0)
    && Count(s.sent, FlightDiverted) == (if s.flight.status.Diverted? then 1 else 0)
    && Count(s.sent, FlightDeparted) + (if s.flight.status.Scheduled? || s.flight.status.Unknown? || s.flight.status.EnRoute? then 1 else 0)
       <= Count(s.sent, FlightReinstated) + 1
  }

  lemma CountAfter(s: State, p: Payload, conflicts: bool, n: Notification)
    requires p !in s.applied && IsStatus(n)
    ensures Count(Handle(s, p, conflicts).sent, n) == Count(s.sent, n)
      + if StatusNotification(p, s.flight.status, StatusAfter(p.event, s.flight.status, p.flight.cancelled)) == Some(n) then 1 else 0
  {
    CountAppend(s.sent, Announced(s.flight, p, conflicts), n);
    AnnouncedIsLed(s.flight, p, conflicts);
    CountOfLed(Announced(s.flight, p, conflicts), StatusNotification(p, s.flight.status, StatusAfter(p.event, s.flight.status, p.flight.cancelled)), n);
  }

  /** One status notification more, if the new status calls for it. */
  ghost predicate StatusMoves(s: State, t: State, p: Payload)
  {
    && t.flight.status == StatusAfter(p.event, s.flight.status, p.flight.cancelled)
    && forall n :: IsStatus(n) ==>
         Count(t.sent, n) == Count(s.sent, n) + (if StatusNotification(p, s.flight.status, t.flight.status) == Some(n) then 1 else 0)
  }

  lemma HandleMovesStatus(s: State, p: Payload, conflicts: bool)
    requires p !in s.applied
    ensures StatusMoves(s, Handle(s, p, conflicts), p)
  {
    forall n | IsStatus(n)
      ensures Count(Handle(s, p, conflicts).sent, n) == Count(s.sent, n)
        + if StatusNotification(p, s.flight.status, StatusAfter(p.event, s.flight.status, p.flight.cancelled)) == Some(n) then 1 else 0
    {
      CountAfter(s, p, conflicts, n);
    }
  }

  lemma MovesKeepBalance(s: State, t: State, p: Payload)
    requires Balanced(s) && StatusMoves(s, t, p)
    ensures Balanced(t)
  {
    assert IsStatus(FlightCancelled) && IsStatus(FlightReinstated) && IsStatus(FlightArrived) && IsStatus(FlightDiverted) && IsStatus(FlightDeparted);
  }

  lemma HandleKeepsBalance(s: State, p: Payload, conflicts: bool)
    requires Balanced(s)
    ensures Balanced(Handle(s, p, conflicts))
  {
    if p !in s.applied {
      HandleMovesStatus(s, p, conflicts);
      MovesKeepBalance(s, Handle(s, p, conflicts), p);
    }
  }

  /** In every prefix of what was sent, cancellations lead reinstatements by nothing or by one. */
  ghost predicate Alternates(sent: seq<Notification>)
  {
    forall k :: 0 <= k <= |sent| ==> InStep(sent[..k])
  }

  predicate InStep(sent: seq<Notification>)
  {
    Count(sent, FlightReinstated) <= Count(sent, FlightCancelled) <= Count(sent, FlightReinstated) + 1
  }

  lemma OneMoreAlternates(sent: seq<Notification>, n: Notification)
    requires Alternates(sent) && InStep(sent + [n])
    ensures Alternates(sent + [n])
  {
    forall k | 0 <= k <= |sent + [n]| ensures InStep((sent + [n])[..k]) {
      if k <= |sent| { assert (sent + [n])[..k] == sent[..k]; } else { assert (sent + [n])[..k] == sent + [n]; }
    }
  }

  lemma {:induction false} DetailsAlternate(sent: seq<Notification>, details: seq<Notification>)
    requires Alternates(sent) && forall i :: 0 <= i < |details| ==> !IsStatus(details[i])
    ensures Alternates(sent + details)
  {
    if details == [] {
      assert sent + details == sent;
    } else {
      var front := details[..|details| - 1];
      var last := details[|details| - 1];
      DetailsAlternate(sent, front);
      assert sent + details == (sent + front) + [last];
      CountAppend(sent + front, [last], FlightCancelled);
      CountAppend(sent + front, [last], FlightReinstated);
      CountOfDetails([last], FlightCancelled);
      CountOfDetails([last], FlightReinstated);
      assert (sent + front)[..|sent + front|] == sent + front;
      OneMoreAlternates(sent + front, last);
    }
  }

  lemma LedAlternates(sent: seq<Notification>, all: seq<Notification>, status: Option<Notification>)
    requires LedBy(all, status) && Alternates(sent) && InStep(sent + all)
    ensures Alternates(sent + all)
  {
    if status.None? {
      DetailsAlternate(sent, all);
    } else {
      assert sent + all == (sent + [all[0]]) + all[1..];
      KeepsInStep(sent + [all[0]], all[1..]);
      OneMoreAlternates(sent, all[0]);
      DetailsAlternate(sent + [all[0]], all[1..]);
    }
  }

  lemma KeepsInStep(sent: seq<Notification>, details: seq<Notification>)
    requires InStep(sent + details) && forall i :: 0 <= i < |details| ==> !IsStatus(details[i])
    ensures InStep(sent)
  {
    CountAppend(sent, details, FlightCancelled);
    CountAppend(sent, details, FlightReinstated);
    CountOfDetails(details, FlightCancelled);
    CountOfDetails(details, FlightReinstated);
  }

  lemma HandleKeepsAlternation(s: State, p: Payload, conflicts: bool)
    requires Balanced(s) && Alternates(s.sent)
    ensures Alternates(Handle(s, p, conflicts).sent)
  {
    if p !in s.applied {
      AnnouncedIsLed(s.flight, p, conflicts);
      HandleKeepsBalance(s, p, conflicts);
      LedAlternates(s.sent, Announced(s.flight, p, conflicts),
                    StatusNotification(p, s.flight.status, StatusAfter(p.event, s.flight.status, p.flight.cancelled)));
    }
  }

  ghost predicate AppliedOnce(applied: seq<Payload>)
  {
    forall i, j :: 0 <= i < j < |applied| ==> applied[i] != applied[j]
  }

  ghost predicate Inv(s: State)
  {
    Balanced(s) && Alternates(s.sent) && AppliedOnce(s.applied)
  }

  predicate UnderWay(status: Status) { status.Scheduled? || status.Departed? || status.EnRoute? || status.Unknown? }

  lemma {:induction false} DeliveriesKeepInv(s: State, deliveries: seq<Delivery>)
    requires Inv(s)
    ensures Inv(After(s, deliveries))
    decreases |deliveries|
  {
    if deliveries != [] {
      if !deliveries[0].fails {
        HandleKeepsBalance(s, deliveries[0].payload, deliveries[0].conflicts);
        HandleKeepsAlternation(s, deliveries[0].payload, deliveries[0].conflicts);
      }
      DeliveriesKeepInv(Deliver(s, deliveries[0]), deliveries[1..]);
    }
  }

  // ----- what holds of every sequence of deliveries

  /**
    From any flight under way: cancellations and reinstatements are announced alternately, the
    status is CANCELLED exactly while there is one cancellation more, and a departure is announced
    at most once more than there were reinstatements.
   */
  lemma CancellationsAlternate(f: Flight, deliveries: seq<Delivery>)
    requires UnderWay(f.status)
    ensures var s := After(Start(f), deliveries);
      && Alternates(s.sent)
      && (s.flight.status.Cancelled? <==> Count(s.sent, FlightCancelled) == Count(s.sent, FlightReinstated) + 1)
      && (!s.flight.status.Cancelled? <==> Count(s.sent, FlightCancelled) == Count(s.sent, FlightReinstated))
      && Count(s.sent, FlightDeparted) <= Count(s.sent, FlightReinstated) + 1
  {
    DeliveriesKeepInv(Start(f), deliveries);
  }

  /** Arrival and diversion together are announced at most once, and exactly when the flight has landed or diverted. */
  lemma ArrivedOrDivertedOnce(f: Flight, deliveries: seq<Delivery>)
    requires UnderWay(f.status)
    ensures var s := After(Start(f), deliveries);
      && Count(s.sent, FlightArrived) + Count(s.sent, FlightDiverted) <= 1
      && (Count(s.sent, FlightArrived) == 1 <==> s.flight.status.Landed?)
      && (Count(s.sent, FlightDiverted) == 1 <==> s.flight.status.Diverted?)
  {
    DeliveriesKeepInv(Start(f), deliveries);
  }

  /** LANDED and DIVERTED are final. */
  lemma {:induction false} FinalStatusStays(s: State, deliveries: seq<Delivery>)
    requires s.flight.status.Landed? || s.flight.status.Diverted?
    ensures After(s, deliveries).flight.status == s.flight.status
    decreases |deliveries|
  {
    if deliveries != [] { FinalStatusStays(Deliver(s, deliveries[0]), deliveries[1..]); }
  }

  predicate Arrives(deliveries: seq<Delivery>, p: Payload)
  {
    exists i :: 0 <= i < |deliveries| && deliveries[i].payload == p && !deliveries[i].fails
  }

  /** A payload is applied at most once, and it is applied as soon as one of its deliveries succeeds. */
  lemma {:induction false} AppliedExactlyOnce(s: State, deliveries: seq<Delivery>, p: Payload)
    requires AppliedOnce(s.applied)
    ensures AppliedOnce(After(s, deliveries).applied)
    ensures p in After(s, deliveries).applied <==> p in s.applied || Arrives(deliveries, p)
    decreases |deliveries|
  {
    if deliveries != [] {
      AppliedExactlyOnce(Deliver(s, deliveries[0]), deliveries[1..], p);
      ArrivesLater(deliveries, p);
    }
  }

  lemma ArrivesLater(deliveries: seq<Delivery>, p: Payload)
    requires deliveries != []
    ensures Arrives(deliveries, p) <==> (deliveries[0].payload == p && !deliveries[0].fails) || Arrives(deliveries[1..], p)
  {
    if Arrives(deliveries[1..], p) {
      var i :| 0 <= i < |deliveries[1..]| && deliveries[1..][i].payload == p && !deliveries[1..][i].fails;
      assert deliveries[i + 1] == deliveries[1..][i];
    }
    if Arrives(deliveries, p) {
      var i :| 0 <= i < |deliveries| && deliveries[i].payload == p && !deliveries[i].fails;
      if i > 0 { assert deliveries[1..][i - 1] == deliveries[i]; }
    }
  }

  /** Deliveries of payloads already applied, failed or not, change nothing. */
  lemma {:induction false} RedeliveryChangesNothing(s: State, deliveries: seq<Delivery>)
    requires forall i :: 0 <= i < |deliveries| ==> deliveries[i].payload in s.applied || deliveries[i].fails
    ensures After(s, deliveries) == s
    decreases |deliveries|
  {
    if deliveries != [] {
      assert Deliver(s, deliveries[0]) == s;
      RedeliveryChangesNothing(s, deliveries[1..]);
    }
  }

  function MaxInt(a: int, b: int): int { if a < b then b else a }

  /**
    A delay is announced exactly when it is known, differs from the last known one by at least ten
    minutes, and one of the two is operational; as a recovery when it is below ten minutes now; and
    to the customer when the larger of the two is at least half an hour.
   */
  lemma DelayIsAnnouncedIff(previous: Option<int>, delay: Option<int>)
    ensures var n := DelayNotification(previous, delay);
      n.Some? <==>
        && delay.Some?
        && (previous.None? || delay.value <= previous.value - 10 || delay.value >= previous.value + 10)
        && MaxInt(delay.value, if previous.Some? then previous.value else 0) >= 10
    ensures DelayNotification(previous, delay).Some? ==>
      var n := DelayNotification(previous, delay).value;
      && (n.FlightDelayed? <==> delay.value >= 10)
      && (n.FlightDelayed? ==> n.minutes == delay.value)
      && (n.FlightDelayRecovered? <==> delay.value < 10)
      && (n.FlightDelayRecovered? ==> n.recovered == MaxInt(delay.value, 0))
      && (n.toCustomer <==> MaxInt(delay.value, if previous.Some? then previous.value else 0) >= 30)
  {}

  // ----- what each event does

  /**
    On a flight under way a new payload makes it landed, diverted, departed or cancelled as its event
    says, and says so; a departure is announced unless there had been one; any other event keeps the status.
   */
  lemma EventsTakeEffect(s: State, p: Payload, conflicts: bool)
    requires s.flight.status in {Scheduled, Departed, EnRoute, Unknown} && p !in s.applied
    ensures var t := Handle(s, p, conflicts);
      && s.sent <= t.sent && t.applied == s.applied + [p]
      && TakesEffect(s.flight.status, t.flight.status, p.event, t.sent[|s.sent|..])
  {
    var t := Handle(s, p, conflicts);
    assert t.sent[|s.sent|..] == Announced(s.flight, p, conflicts);
  }

  /** What an event makes of a flight under way, and what is announced. */
  predicate TakesEffect(before: Status, after: Status, event: EventCode, news: seq<Notification>)
  {
    && (event in {EvArrival, EvOn, EvIn} ==> after == Landed && FlightArrived in news)
    && (event == EvDiverted ==> after == Diverted && FlightDiverted in news)
    && (event == EvCancelled ==> after == Status.Cancelled && FlightCancelled in news)
    && (event in {EvDeparture, EvOut, EvOff} ==> after == Departed && (FlightDeparted in news <==> before != Departed))
    && (event !in {EvArrival, EvOn, EvIn, EvDiverted, EvCancelled, EvDeparture, EvOut, EvOff} ==> after == before)
  }

  /** A cancelled flight comes back by a change that says it is not cancelled, and by nothing else. */
  lemma OnlyAChangeReinstates(s: State, p: Payload, conflicts: bool)
    requires s.flight.status == Status.Cancelled && p !in s.applied
    ensures var t := Handle(s, p, conflicts);
      if p.event == EvChange && p.flight.cancelled == Some(false)
      then t.flight.status == Scheduled && FlightReinstated in t.sent[|s.sent|..]
      else t.flight.status == Status.Cancelled
  {
    assert Handle(s, p, conflicts).sent[|s.sent|..] == Announced(s.flight, p, conflicts);
  }

  /** Gate and terminal become what a payload gives for them; a change of either is announced, by changes only. */
  lemma DetailsTakeEffect(s: State, p: Payload, conflicts: bool)
    requires p !in s.applied
    ensures var t := Handle(s, p, conflicts); var gate := p.flight.gate; var terminal := p.flight.terminal;
      && t.flight.arrivalGate == (if gate.Missing? then s.flight.arrivalGate else gate.value)
      && t.flight.arrivalTerminal == (if terminal.Missing? then s.flight.arrivalTerminal else terminal.value)
      && (p.event == EvChange && s.flight.status != Status.Cancelled ==>
            && (GateChanged(t.flight.arrivalGate) in t.sent[|s.sent|..] <==> t.flight.arrivalGate != s.flight.arrivalGate)
            && (TerminalChanged(t.flight.arrivalTerminal) in t.sent[|s.sent|..] <==> t.flight.arrivalTerminal != s.flight.arrivalTerminal))
  {
    HandleWrites(s, p, conflicts);
    assert Handle(s, p, conflicts).sent[|s.sent|..] == Announced(s.flight, p, conflicts);
    DetailsAreListed(p.flight, s.flight);
  }

  lemma DetailsAreListed(info: FlightInfo, previous: Flight)
    ensures forall gate :: GateChanged(gate) in ChangeNotifications(info, previous) <==>
      info.gate.Present? && gate == info.gate.value && gate != previous.arrivalGate
    ensures forall terminal :: TerminalChanged(terminal) in ChangeNotifications(info, previous) <==>
      info.terminal.Present? && terminal == info.terminal.value && terminal != previous.arrivalTerminal
  {
    var delay := AsList(DelayNotification(previous.delayMinutes, ArrivalDelay(info, previous)));
    assert forall n :: n in delay ==> !n.GateChanged? && !n.TerminalChanged?;
  }

  /**
    The arrival a delay is measured by: the actual time at the gate or else on the ground, or else the
    estimated one, against the scheduled one; what a payload leaves out stays as it was known. In whole
    minutes, nearest, halves up.
   */
  lemma DelayIsMeasured(info: FlightInfo, previous: Flight)
    requires info.actualIn.Present? || info.actualOn.Present? || info.estimatedIn.Present? || info.estimatedOn.Present?
    requires info.scheduledIn.Missing? && info.scheduledOn.Missing?
    ensures previous.scheduledArrival.None? ==> ArrivalDelay(info, previous).None?
    ensures previous.scheduledArrival.Some? ==>
      var due := previous.scheduledArrival.value; var delay := ArrivalDelay(info, previous);
      && (info.actualIn.Value().Some? ==> delay.Some? && Nearest(info.actualIn.Value().value - due, delay.value))
      && (info.actualIn.Value().None? && info.actualOn.Value().Some? ==>
            delay.Some? && Nearest(info.actualOn.Value().value - due, delay.value))
      && (info.actualIn.Value().None? && info.actualOn.Value().None? && info.estimatedIn.Value().Some? ==>
            delay.Some? && Nearest(info.estimatedIn.Value().value - due, delay.value))
      && (info.actualIn.Value().None? && info.actualOn.Value().None? && info.estimatedIn.Value().None? ==>
            (delay.Some? <==> info.estimatedOn.Value().Some?)
            && (delay.Some? ==> Nearest(info.estimatedOn.Value().value - due, delay.value)))
  {}

  predicate Nearest(ms: int, minutes: int) { 60_000 * minutes - 30_000 <= ms < 60_000 * minutes + 30_000 }

  /** Scheduled, estimated and actual arrivals are remembered from the payloads that give them. */
  lemma ArrivalsAreRemembered(f: Flight, p: Payload)
    ensures var t := UpdatedFlight(f, p); var info := p.flight;
      && (info.scheduledIn.Value().Some? ==> t.scheduledArrival == info.scheduledIn.Value())
      && (info.scheduledIn.Value().None? && info.scheduledOn.Value().Some? ==> t.scheduledArrival == info.scheduledOn.Value())
      && (info.scheduledIn.Value().None? && info.scheduledOn.Value().None? ==> t.scheduledArrival == f.scheduledArrival)
      && (info.estimatedIn.Value().Some? ==> t.estimatedArrival == info.estimatedIn.Value())
      && (info.estimatedIn.Value().None? && info.estimatedOn.Value().Some? ==> t.estimatedArrival == info.estimatedOn.Value())
      && (info.estimatedIn.Value().None? && info.estimatedOn.Value().None? ==> t.estimatedArrival == f.estimatedArrival)
      && (info.actualIn.Value().Some? ==> t.actualArrival == info.actualIn.Value())
      && (info.actualIn.Value().None? && info.actualOn.Value().Some? ==> t.actualArrival == info.actualOn.Value())
      && (info.actualIn.Value().None? && info.actualOn.Value().None? ==> t.actualArrival == f.actualArrival)
  {}

  /** Some delivery that takes effect is an arrival of a flight then under way. */
  ghost predicate ArrivesUnderWay(s: State, deliveries: seq<Delivery>)
    decreases |deliveries|
  {
    deliveries != [] &&
      (|| (&& !deliveries[0].fails && deliveries[0].payload !in s.applied
           && s.flight.status in {Scheduled, Departed, EnRoute, Unknown} && deliveries[0].payload.event in {EvArrival, EvOn, EvIn})
       || ArrivesUnderWay(Deliver(s, deliveries[0]), deliveries[1..]))
  }

  /** Over any deliveries to a flight that has not landed yet: it is landed in the end if and only if it arrived while under way. */
  lemma {:induction false} LandedIff(s: State, deliveries: seq<Delivery>)
    requires !s.flight.status.Landed?
    ensures After(s, deliveries).flight.status == Landed <==> ArrivesUnderWay(s, deliveries)
    decreases |deliveries|
  {
    if deliveries != [] {
      var t := Deliver(s, deliveries[0]);
      if t.flight.status.Landed? {
        FinalStatusStays(t, deliveries[1..]);
      } else {
        LandedIff(t, deliveries[1..]);
      }
    }
  }

  // ----- two consequences a reader might not expect

  /** A cancellation takes effect on a flight under way exactly when its payload is not known yet. */
  lemma CancellationTakesEffectIff(s: State, p: Payload, conflicts: bool)
    requires UnderWay(s.flight.status) && p.event.EvCancelled?
    ensures Handle(s, p, conflicts).flight.status.Cancelled? <==> p !in s.applied
  {}

  /**
    Over any deliveries: after one more cancellation has arrived, the flight is cancelled if and only
    if it was so already, or was under way and the same payload had never arrived before.
   */
  lemma LastCancellationCountsIff(f: Flight, deliveries: seq<Delivery>, last: Delivery)
    requires last.payload.event.EvCancelled? && !last.fails
    ensures var before := After(Start(f), deliveries).flight.status;
      After(Start(f), deliveries + [last]).flight.status.Cancelled?
      <==> before.Cancelled? || (UnderWay(before) && !Arrives(deliveries, last.payload))
  {
    AfterOneMore(Start(f), deliveries, last);
    AppliedExactlyOnce(Start(f), deliveries, last.payload);
  }

  /** A second cancellation whose payload equals the first is taken for a redelivery: the flight stays scheduled. */
  lemma IdenticalCancellationIsLost(f: Flight, cancel: Payload, change: Payload)
    requires UnderWay(f.status) && cancel.event.EvCancelled? && change.event.EvChange? && change.flight.cancelled == Some(false)
    ensures var c := Delivery(cancel, false, false);
      var s := After(Start(f), [c, Delivery(change, false, false)] + [c]);
      s.flight.status.Scheduled? && s.sent == [FlightCancelled, FlightReinstated]
  {
    var c := Delivery(cancel, false, false);
    var twice := After(Start(f), [c] + [Delivery(change, false, false)]);
    AfterOneMore(Start(f), [], c);
    assert [] + [c] == [c] && [c] + [Delivery(change, false, false)] == [c, Delivery(change, false, false)];
    AfterOneMore(Start(f), [c], Delivery(change, false, false));
    AfterOneMore(Start(f), [c, Delivery(change, false, false)], c);
  }

  function Estimate(alertId: nat, scheduled: int, minutes: int): Payload
  {
    Payload(alertId, EvChange, FlightInfo(None, Present(Some(scheduled)), Missing,
      Present(Some(scheduled + minutes * 60000)), Missing, Missing, Missing, Missing, Missing, ""))
  }

  /** Changes that push the arrival back by nine more minutes each. */
  function Creep(alertId: nat, scheduled: int, from: int, n: nat): seq<Delivery>
    decreases n
  {
    if n == 0 then [] else [Delivery(Estimate(alertId, scheduled, from + 9), false, false)] + Creep(alertId, scheduled, from + 9, n - 1)
  }

  lemma OneCreep(s: State, alertId: nat, scheduled: int, from: int) returns (t: State)
    requires s.flight.delayMinutes == Some(from) && UnderWay(s.flight.status)
    requires Estimate(alertId, scheduled, from + 9) !in s.applied
    ensures t == Deliver(s, Delivery(Estimate(alertId, scheduled, from + 9), false, false))
    ensures t.sent == s.sent && t.flight.delayMinutes == Some(from + 9) && UnderWay(t.flight.status)
    ensures t.applied == s.applied + [Estimate(alertId, scheduled, from + 9)]
  {
    var p := Estimate(alertId, scheduled, from + 9);
    t := Handle(s, p, false);
    assert ArrivalDelay(p.flight, s.flight) == Some(from + 9);
    assert Notifications(s.flight, p) == [];
  }

  /** No later estimate has been applied. */
  ghost predicate NoneLater(applied: seq<Payload>, alertId: nat, scheduled: int, from: int)
  {
    forall k :: from < k ==> Estimate(alertId, scheduled, k) !in applied
  }

  lemma StillNoneLater(applied: seq<Payload>, alertId: nat, scheduled: int, from: int)
    requires NoneLater(applied, alertId, scheduled, from)
    ensures NoneLater(applied + [Estimate(alertId, scheduled, from + 9)], alertId, scheduled, from + 9)
  {
    var p := Estimate(alertId, scheduled, from + 9);
    forall k | from + 9 < k ensures Estimate(alertId, scheduled, k) !in applied + [p] {
      assert Estimate(alertId, scheduled, k).flight.estimatedIn != p.flight.estimatedIn;
    }
  }

  lemma AfterCreep(s: State, alertId: nat, scheduled: int, from: int, n: nat)
    requires n > 0
    ensures After(s, Creep(alertId, scheduled, from, n))
         == After(Deliver(s, Delivery(Estimate(alertId, scheduled, from + 9), false, false)), Creep(alertId, scheduled, from + 9, n - 1))
  {
    assert Creep(alertId, scheduled, from, n)[1..] == Creep(alertId, scheduled, from + 9, n - 1);
  }

  /** Each change is measured against the last one, so a delay of any size can build up without one notification. */
  lemma {:induction false} CreepingDelayIsSilent(s: State, alertId: nat, scheduled: int, from: int, n: nat)
    requires s.flight.delayMinutes == Some(from) && UnderWay(s.flight.status)
    requires NoneLater(s.applied, alertId, scheduled, from)
    ensures var t := After(s, Creep(alertId, scheduled, from, n));
      t.flight.delayMinutes == Some(from + 9 * n) && t.sent == s.sent
    decreases n
  {
    if n > 0 {
      var t := OneCreep(s, alertId, scheduled, from);
      StillNoneLater(s.applied, alertId, scheduled, from);
      CreepingDelayIsSilent(t, alertId, scheduled, from + 9, n - 1);
      AfterCreep(s, alertId, scheduled, from, n);
    }
  }

  // ----- the service

  class FlightAwareWebhookService {
    var flight: Flight
    var alertId: Option<nat>
    var alertEnabled: bool
    var events: seq<Payload>
    var outbox: seq<Notification>
    ghost const initial: Flight
    ghost var deliveries: seq<Delivery>

    /** The tables are what the deliveries so far have made of the flight. */
    ghost predicate Valid()
      reads this
    {
      After(Start(initial), deliveries) == State(flight, events, outbox)
    }

    constructor (flight: Flight, alertId: Option<nat>, alertEnabled: bool)
      ensures Valid() && this.flight == flight && events == [] && outbox == [] && deliveries == [] && initial == flight
      ensures this.alertId == alertId && this.alertEnabled == alertEnabled
    {
      this.flight, this.alertId, this.alertEnabled := flight, alertId, alertEnabled;
      events, outbox := [], [];
      initial, deliveries := flight, [];
    }

    /**
      `handleWebhook`: refused for another alert or a disabled one; a payload seen before is
      reported as a duplicate and nothing changes; otherwise the flight, the event and the
      notifications are written together. `conflicts` is what moving the bookings' windows finds.
     */
    method HandleWebhook(p: Payload, conflicts: bool) returns (duplicate: Result<bool, string>)
      requires Valid()
      modifies this
      ensures Valid() && alertId == old(alertId) && alertEnabled == old(alertEnabled)
      ensures duplicate.Err? <==> !(alertEnabled && alertId == Some(p.alertId))
      ensures duplicate.Err? || duplicate.value ==> flight == old(flight) && events == old(events) && outbox == old(outbox)
      ensures duplicate.Ok? ==> duplicate.value == (p in old(events)) && p in events
      ensures duplicate.Ok? && !duplicate.value ==>
        && flight == UpdatedFlight(old(flight), p)
        && outbox == old(outbox) + Announced(old(flight), p, conflicts)
      // what a first delivery to a flight under way does
      ensures duplicate.Ok? && !duplicate.value && old(flight).status in {Scheduled, Departed, EnRoute, Unknown} ==>
        old(outbox) <= outbox && TakesEffect(old(flight).status, flight.status, p.event, outbox[|old(outbox)|..])
      ensures deliveries == if duplicate.Ok? then old(deliveries) + [Delivery(p, false, conflicts)] else old(deliveries)
    {
      if !alertEnabled || alertId != Some(p.alertId) {
        return Err("Flight not found");
      }
      AfterOneMore(Start(initial), deliveries, Delivery(p, false, conflicts));
      deliveries := deliveries + [Delivery(p, false, conflicts)];
      if p in events {
        return Ok(true);
      }
      if UnderWay(flight.status) {
        EventsTakeEffect(State(flight, events, outbox), p, conflicts);
      }
      HandleWrites(State(flight, events, outbox), p, conflicts);
      ApplyUpdate(p, conflicts);
      duplicate := Ok(false);
    }

    /** The one transaction that writes the flight, the event and the notifications. */
    method ApplyUpdate(p: Payload, conflicts: bool)
      modifies `flight, `events, `outbox
      ensures flight == UpdatedFlight(old(flight), p) && events == old(events) + [p]
      ensures outbox == old(outbox) + Announced(old(flight), p, conflicts)
    {
      var notifications := Notifications(flight, p);
      if MovesBookings(flight, p) && conflicts {
        notifications := notifications + [ScheduleConflict];
      }
      flight := UpdatedFlight(flight, p);
      outbox := outbox + notifications;
      events := events + [p];
    }
  }

  lemma HandleWrites(s: State, p: Payload, conflicts: bool)
    requires p !in s.applied
    ensures Handle(s, p, conflicts) == State(UpdatedFlight(s.flight, p), s.applied + [p], s.sent + Announced(s.flight, p, conflicts))
  {}

  lemma {:induction false} AfterOneMore(s: State, deliveries: seq<Delivery>, d: Delivery)
    ensures After(s, deliveries + [d]) == Deliver(After(s, deliveries), d)
    decreases |deliveries|
  {
    if deliveries == [] {
      assert deliveries + [d] == [d];
      assert [d][1..] == [];
    } else {
      assert (deliveries + [d])[1..] == deliveries[1..] + [d];
      AfterOneMore(Deliver(s, deliveries[0]), deliveries[1..], d);
    }
  }
}
