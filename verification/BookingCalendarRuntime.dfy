/**
  The code that writes the calendar: the availability check, the creation and update transactions,
  and the loop that moves airport bookings when their flight moves. Each transaction is proved to be
  a run of the `BookingCalendar` machine, started while other transactions may be open on other
  cars; its own statements are then carried out without a break.
 */
module BookingCalendarRuntime {
  import opened Foundations
  import opened BookingResponse
  import opened Sorting
  import opened BookingCalendar

  datatype CalendarError = CarNotAvailable | StatusNotModifiable

  datatype Leg = Leg(start: int, end: int)

  /** A booking as the flight webhook read it at the start of its transaction. */
  datatype AirportBooking = AirportBooking(id: nat, car: nat, status: BookingStatus, legs: seq<Leg>)

  predicate CarFree(s: State, car: nat)
  {
    forall u :: u in s.txs ==> car !in s.txs[u].cars
  }

  // ----- the transactions, as runs of the machine

  /** The tables with transaction `t` under way. */
  function Open(s: State, t: nat, cars: set<nat>, windows: map<nat, Window>): State
  {
    SetTx(s, t, Tx(cars, windows, map[]))
  }

  function WithWindows(bookings: map<nat, Booking>, windows: map<nat, Window>): map<nat, Booking>
  {
    map id | id in bookings :: if id in windows then bookings[id].(window := windows[id]) else bookings[id]
  }

  lemma OpenRun(s: State, t: nat)
    requires Reachable(s, true) && t !in s.txs
    ensures Reachable(Open(s, t, {}, map[]), true)
  {
    var u := Take(s, Begin(t), true);
  }

  lemma LockRun(s: State, t: nat, cars: set<nat>, windows: map<nat, Window>, car: nat)
    requires t !in s.txs && CarFree(s, car) && Reachable(Open(s, t, cars, windows), true)
    ensures Reachable(Open(s, t, cars + {car}, windows), true)
  {
    var u := Take(Open(s, t, cars, windows), LockCar(t, car), true);
    assert u == Open(s, t, cars + {car}, windows);
  }

  lemma MoveRun(s: State, t: nat, cars: set<nat>, windows: map<nat, Window>, id: nat, w: Window)
    requires t !in s.txs && Reachable(Open(s, t, cars, windows), true)
    requires id in s.bookings && s.bookings[id].car in cars
    requires Available(WithWindows(s.bookings, windows), s.bookings[id].car, w, Some(id))
    ensures Reachable(Open(s, t, cars, windows[id := w]), true)
  {
    assert View(s.bookings, Tx(cars, windows, map[])) == WithWindows(s.bookings, windows);
    var u := Take(Open(s, t, cars, windows), Reschedule(t, id, w), true);
    assert u == Open(s, t, cars, windows[id := w]);
  }

  lemma CommitRun(s: State, t: nat, cars: set<nat>, windows: map<nat, Window>)
    requires t !in s.txs && Reachable(Open(s, t, cars, windows), true)
    ensures Reachable(s.(bookings := WithWindows(s.bookings, windows)), true)
  {
    var u := Take(Open(s, t, cars, windows), Commit(t), true);
    assert u.txs == s.txs;
    assert u.bookings == WithWindows(s.bookings, windows);
  }

  lemma RescheduleRun(s: State, t: nat, id: nat, w: Window)
    requires Reachable(s, true) && t !in s.txs && id in s.bookings && CarFree(s, s.bookings[id].car)
    requires Available(s.bookings, s.bookings[id].car, w, Some(id))
    ensures Reachable(s.(bookings := s.bookings[id := s.bookings[id].(window := w)]), true)
  {
    var car := s.bookings[id].car;
    OpenRun(s, t);
    LockRun(s, t, {}, map[], car);
    assert WithWindows(s.bookings, map[]) == s.bookings;
    MoveRun(s, t, {} + {car}, map[], id, w);
    CommitRun(s, t, {} + {car}, map[id := w]);
    assert WithWindows(s.bookings, map[id := w]) == s.bookings[id := s.bookings[id].(window := w)];
  }

  lemma CreateRun(s: State, t: nat, id: nat, car: nat, w: Window)
    requires Reachable(s, true) && t !in s.txs && CarFree(s, car) && !IdInUse(s, id)
    requires Available(s.bookings, car, w, None)
    ensures Reachable(s.(bookings := s.bookings[id := Booking(car, w, Pending, false)]), true)
  {
    OpenRun(s, t);
    LockRun(s, t, {}, map[], car);
    CreatedRun(s, t, {} + {car}, id, Booking(car, w, Pending, false));
    CreateCommits(s, t, {} + {car}, id, Booking(car, w, Pending, false));
  }

  lemma CreateCommits(s: State, t: nat, cars: set<nat>, id: nat, row: Booking)
    requires t !in s.txs && Reachable(SetTx(s, t, Tx(cars, map[], map[id := row])), true)
    ensures Reachable(s.(bookings := s.bookings[id := row]), true)
  {
    var tx := Tx(cars, map[], map[id := row]);
    assert View(s.bookings, tx) == s.bookings[id := row];
    var u := Take(SetTx(s, t, tx), Commit(t), true);
    assert u.txs == s.txs;
  }

  lemma CreatedRun(s: State, t: nat, cars: set<nat>, id: nat, row: Booking)
    requires t !in s.txs && Reachable(Open(s, t, cars, map[]), true) && !IdInUse(s, id)
    requires row == Booking(row.car, row.window, Pending, false) && row.car in cars
    requires Available(s.bookings, row.car, row.window, None)
    ensures Reachable(SetTx(s, t, Tx(cars, map[], map[id := row])), true)
  {
    var tx := Tx(cars, map[], map[]);
    assert View(s.bookings, tx) == s.bookings;
    var open := Open(s, t, cars, map[]);
    assert !IdInUse(open, id);
    var u := Take(open, Create(t, id, row.car, row.window), true);
    assert u == SetTx(s, t, Tx(cars, map[], map[id := row]));
  }

  // ----- moving airport bookings

  /** Confirmed, with one leg of positive length that does not start at the new time already. */
  predicate Movable(b: AirportBooking, start: int)
  {
    b.status.Confirmed? && |b.legs| == 1 && b.legs[0].end - b.legs[0].start > 0 && b.legs[0].start != start
  }

  function MovedWindow(b: AirportBooking, start: int): Window
    requires Movable(b, start)
  {
    Window(start, start + (b.legs[0].end - b.legs[0].start))
  }

  predicate ByCar(a: AirportBooking, b: AirportBooking) { a.car <= b.car }

  /** The loop takes up every booking once and the cars in order, so all webhooks lock cars in the same order. */
  lemma CarsAreLockedInOrder(list: seq<AirportBooking>)
    ensures var sorted := StableSort(list, (a, b) => ByCar(a, b));
      && multiset(sorted) == multiset(list)
      && forall i, j :: 0 <= i < j < |sorted| ==> sorted[i].car <= sorted[j].car
  {
    var byCar := (a: AirportBooking, b: AirportBooking) => ByCar(a, b);
    SortIsPermutation(list, byCar);
    SortSorts(list, byCar);
  }

  /** The outcome of the loop: the dates written, and the bookings reported as conflicting, in order. */
  function Synced(bookings: map<nat, Booking>, windows: map<nat, Window>, list: seq<AirportBooking>, start: int)
    : (map<nat, Window>, seq<nat>)
    decreases |list|
  {
    if list == [] then (windows, [])
    else if !Movable(list[0], start) then Synced(bookings, windows, list[1..], start)
    else if Available(WithWindows(bookings, windows), list[0].car, MovedWindow(list[0], start), Some(list[0].id)) then
      Synced(bookings, windows[list[0].id := MovedWindow(list[0], start)], list[1..], start)
    else
      var rest := Synced(bookings, windows, list[1..], start);
      (rest.0, [list[0].id] + rest.1)
  }

  ghost predicate DistinctIds(list: seq<AirportBooking>)
  {
    forall i, j :: 0 <= i < j < |list| ==> list[i].id != list[j].id
  }

  /** Bookings that are not in the list keep their dates and are not reported. */
  lemma {:induction false} SyncLeavesOthers(bookings: map<nat, Booking>, windows: map<nat, Window>, list: seq<AirportBooking>, start: int, id: nat)
    requires forall i :: 0 <= i < |list| && list[i].id == id ==> !Movable(list[i], start)
    ensures var (after, conflicted) := Synced(bookings, windows, list, start);
      && id !in conflicted
      && (id in after <==> id in windows) && (id in windows ==> after[id] == windows[id])
    decreases |list|
  {
    if list != [] {
      if !Movable(list[0], start) {
        SyncLeavesOthers(bookings, windows, list[1..], start, id);
      } else if Available(WithWindows(bookings, windows), list[0].car, MovedWindow(list[0], start), Some(list[0].id)) {
        SyncLeavesOthers(bookings, windows[list[0].id := MovedWindow(list[0], start)], list[1..], start, id);
      } else {
        SyncLeavesOthers(bookings, windows, list[1..], start, id);
      }
    }
  }

  /** Every movable booking is either moved, for exactly as long as it was, or reported, and never both. */
  lemma {:induction false} SyncMovesOrReports(bookings: map<nat, Booking>, windows: map<nat, Window>, list: seq<AirportBooking>, start: int, i: nat)
    requires DistinctIds(list) && i < |list| && list[i].id !in windows
    requires list[i].status.Confirmed? && |list[i].legs| == 1
    requires list[i].legs[0].start < list[i].legs[0].end && list[i].legs[0].start != start
    ensures var (after, conflicted) := Synced(bookings, windows, list, start);
      var id := list[i].id;
      if id in conflicted then id !in after
      else id in after && after[id].start == start && after[id].end - after[id].start == list[i].legs[0].end - list[i].legs[0].start
    decreases |list|
  {
    var head := list[0];
    var moves := Movable(head, start)
      && Available(WithWindows(bookings, windows), head.car, MovedWindow(head, start), Some(head.id));
    var next := if moves then windows[head.id := MovedWindow(head, start)] else windows;
    if i == 0 {
      SyncLeavesOthers(bookings, next, list[1..], start, head.id);
    } else {
      SyncMovesOrReports(bookings, next, list[1..], start, i - 1);
    }
  }

  /** Any other booking in the list is left out: not confirmed, not of one leg, of no length, or there already. */
  lemma SyncSkips(bookings: map<nat, Booking>, list: seq<AirportBooking>, start: int, i: nat)
    requires DistinctIds(list) && i < |list|
    requires !list[i].status.Confirmed? || |list[i].legs| != 1
      || list[i].legs[0].end <= list[i].legs[0].start || list[i].legs[0].start == start
    ensures list[i].id !in Synced(bookings, map[], list, start).0 && list[i].id !in Synced(bookings, map[], list, start).1
  {
    forall j | 0 <= j < |list| && list[j].id == list[i].id ensures !Movable(list[j], start) {
      assert j == i;
    }
    SyncLeavesOthers(bookings, map[], list, start, list[i].id);
  }

  /** What the webhook does to one of its bookings. */
  ghost predicate MovedOrReported(before: map<nat, Booking>, after: map<nat, Booking>, conflicted: seq<nat>, b: AirportBooking, start: int)
  {
    && b.id in before && b.id in after
    && (Movable(b, start) && b.id !in conflicted ==>
          after[b.id].window.start == start
          && after[b.id].window.end - after[b.id].window.start == b.legs[0].end - b.legs[0].start)
    && (!Movable(b, start) ==> b.id !in conflicted)
    && (!Movable(b, start) || b.id in conflicted ==> after[b.id] == before[b.id])
  }

  lemma SyncEffect(bookings: map<nat, Booking>, list: seq<AirportBooking>, start: int, b: AirportBooking)
    requires DistinctIds(list) && b in list && b.id in bookings
    ensures var (windows, conflicted) := Synced(bookings, map[], StableSort(list, (a, b) => ByCar(a, b)), start);
      MovedOrReported(bookings, WithWindows(bookings, windows), conflicted, b, start)
  {
    var sorted := StableSort(list, (a, b) => ByCar(a, b));
    SortKeepsDistinct(list, (a, b) => ByCar(a, b), (b: AirportBooking) => b.id);
    SameElements(list, (a, b) => ByCar(a, b), b);
    var i :| 0 <= i < |sorted| && sorted[i] == b;
    if b.status.Confirmed? && |b.legs| == 1 && b.legs[0].start < b.legs[0].end && b.legs[0].start != start {
      SyncMovesOrReports(bookings, map[], sorted, start, i);
    } else {
      SyncSkips(bookings, sorted, start, i);
    }
  }

  lemma SyncSparesUnlisted(bookings: map<nat, Booking>, list: seq<AirportBooking>, start: int, id: nat)
    requires id in bookings && forall i :: 0 <= i < |list| ==> list[i].id != id
    ensures var (windows, conflicted) := Synced(bookings, map[], StableSort(list, (a, b) => ByCar(a, b)), start);
      id !in windows && id !in conflicted
  {
    var sorted := StableSort(list, (a, b) => ByCar(a, b));
    forall i | 0 <= i < |sorted| ensures sorted[i].id != id { SameElements(list, (a, b) => ByCar(a, b), sorted[i]); }
    SyncLeavesOthers(bookings, map[], sorted, start, id);
  }

  /** The whole effect of the loop on the table. */
  lemma SyncEffects(bookings: map<nat, Booking>, list: seq<AirportBooking>, start: int)
    requires DistinctIds(list) && forall i :: 0 <= i < |list| ==> list[i].id in bookings
    ensures var (windows, conflicted) := Synced(bookings, map[], StableSort(list, (a, b) => ByCar(a, b)), start);
      && (forall i :: 0 <= i < |list| ==> MovedOrReported(bookings, WithWindows(bookings, windows), conflicted, list[i], start))
      && (forall i :: 0 <= i < |list| && Movable(list[i], start) && list[i].id !in conflicted ==> list[i].id in windows)
      && (forall id :: id in bookings && (forall i :: 0 <= i < |list| ==> list[i].id != id) ==> id !in windows && id !in conflicted)
  {
    forall i | 0 <= i < |list|
      ensures var (windows, conflicted) := Synced(bookings, map[], StableSort(list, (a, b) => ByCar(a, b)), start);
        MovedOrReported(bookings, WithWindows(bookings, windows), conflicted, list[i], start)
    {
      SyncEffect(bookings, list, start, list[i]);
    }
    forall i | 0 <= i < |list| && Movable(list[i], start)
      ensures var (windows, conflicted) := Synced(bookings, map[], StableSort(list, (a, b) => ByCar(a, b)), start);
        list[i].id !in conflicted ==> list[i].id in windows
    {
      SyncMoves(bookings, list, start, list[i]);
    }
    forall id | id in bookings && forall i :: 0 <= i < |list| ==> list[i].id != id
      ensures var (windows, conflicted) := Synced(bookings, map[], StableSort(list, (a, b) => ByCar(a, b)), start);
        id !in windows && id !in conflicted
    {
      SyncSparesUnlisted(bookings, list, start, id);
    }
  }

  lemma SyncMoves(bookings: map<nat, Booking>, list: seq<AirportBooking>, start: int, b: AirportBooking)
    requires DistinctIds(list) && b in list && Movable(b, start)
    ensures var (windows, conflicted) := Synced(bookings, map[], StableSort(list, (a, b) => ByCar(a, b)), start);
      b.id !in conflicted ==> b.id in windows
  {
    var sorted := StableSort(list, (a, b) => ByCar(a, b));
    SortKeepsDistinct(list, (a, b) => ByCar(a, b), (b: AirportBooking) => b.id);
    SameElements(list, (a, b) => ByCar(a, b), b);
    var i :| 0 <= i < |sorted| && sorted[i] == b;
    SyncMovesOrReports(bookings, map[], sorted, start, i);
  }

  /** The booking is in the table with this car, and nobody else holds the car. */
  predicate Known(s: State, b: AirportBooking)
  {
    b.id in s.bookings && s.bookings[b.id].car == b.car && CarFree(s, b.car)
  }

  lemma SortedAreKnown(s: State, list: seq<AirportBooking>)
    requires forall i :: 0 <= i < |list| ==> Known(s, list[i])
    ensures var sorted := StableSort(list, (a, b) => ByCar(a, b));
      forall i :: 0 <= i < |sorted| ==> Known(s, sorted[i])
  {
    var sorted := StableSort(list, (a, b) => ByCar(a, b));
    forall i | 0 <= i < |sorted| ensures Known(s, sorted[i]) {
      SameElements(list, (a, b) => ByCar(a, b), sorted[i]);
    }
  }

  /** One turn of the loop: lock the car, then move the booking or leave it. */
  lemma TurnRun(s: State, t: nat, cars: set<nat>, windows: map<nat, Window>, b: AirportBooking, start: int)
    requires t !in s.txs && Known(s, b) && Movable(b, start) && Reachable(Open(s, t, cars, windows), true)
    ensures Reachable(Open(s, t, cars + {b.car}, windows), true)
    ensures Available(WithWindows(s.bookings, windows), b.car, MovedWindow(b, start), Some(b.id)) ==>
      Reachable(Open(s, t, cars + {b.car}, windows[b.id := MovedWindow(b, start)]), true)
  {
    LockRun(s, t, cars, windows, b.car);
    if Available(WithWindows(s.bookings, windows), b.car, MovedWindow(b, start), Some(b.id)) {
      MoveRun(s, t, cars + {b.car}, windows, b.id, MovedWindow(b, start));
    }
  }

  /** The whole loop as a run: every move it makes is a step the machine allows. */
  lemma {:induction false} LoopRun(s: State, t: nat, cars: set<nat>, windows: map<nat, Window>, list: seq<AirportBooking>, start: int)
    returns (locked: set<nat>)
    requires t !in s.txs && Reachable(Open(s, t, cars, windows), true)
    requires forall i :: 0 <= i < |list| ==> Known(s, list[i])
    ensures Reachable(Open(s, t, locked, Synced(s.bookings, windows, list, start).0), true)
    decreases |list|
  {
    if list == [] {
      locked := cars;
    } else if !Movable(list[0], start) {
      locked := LoopRun(s, t, cars, windows, list[1..], start);
    } else {
      var b := list[0];
      TurnRun(s, t, cars, windows, b, start);
      if Available(WithWindows(s.bookings, windows), b.car, MovedWindow(b, start), Some(b.id)) {
        locked := LoopRun(s, t, cars + {b.car}, windows[b.id := MovedWindow(b, start)], list[1..], start);
      } else {
        locked := LoopRun(s, t, cars + {b.car}, windows, list[1..], start);
      }
    }
  }

  class BookingCalendarService {
    var bookings: map<nat, Booking>
    var conflictFlags: set<nat>
    ghost var state: State

    ghost predicate Valid()
      reads this
    {
      Reachable(state, true) && state.bookings == bookings
    }

    constructor ()
      ensures Valid() && bookings == map[] && conflictFlags == {} && state.txs == map[]
    {
      bookings, conflictFlags, state := map[], {}, EMPTY;
      new;
      ReachableFromNothing(true);
    }

    /** `checkCarAvailability`: an error exactly when some other blocking booking leaves no turnaround. */
    method CheckCarAvailability(car: nat, w: Window, exclude: Option<nat>) returns (available: bool)
      requires Valid()
      ensures available <==>
        forall id ::
          (&& id in bookings && Some(id) != exclude && bookings[id].car == car
           && !bookings[id].deleted && bookings[id].status in {Pending, Confirmed, Active}) ==>
          bookings[id].window.end + 7_200_000 <= w.start || w.end + 7_200_000 <= bookings[id].window.start
    {
      available := Available(bookings, car, w, exclude);
      forall id | id in bookings && Some(id) != exclude && bookings[id].car == car && bookings[id].Blocking()
        ensures Conflicts(bookings[id], car, w) <==> !AtLeastTwoHoursApart(bookings[id].window, w)
      {}
    }

    method CreateBooking(t: nat, id: nat, car: nat, w: Window) returns (result: Result<nat, CalendarError>)
      requires Valid() && t !in state.txs && CarFree(state, car) && !IdInUse(state, id)
      modifies this
      ensures Valid() && state.txs == old(state).txs && conflictFlags == old(conflictFlags)
      ensures result == if Available(old(bookings), car, w, None) then Ok(id) else Err(CarNotAvailable)
      ensures bookings == if result.Ok? then old(bookings)[id := Booking(car, w, Pending, false)] else old(bookings)
    {
      if Available(bookings, car, w, None) {
        CreateRun(state, t, id, car, w);
        bookings := bookings[id := Booking(car, w, Pending, false)];
        state := state.(bookings := bookings);
        result := Ok(id);
      } else {
        result := Err(CarNotAvailable);
      }
    }

    /** The update of the dates succeeds only while the booking is confirmed and still starts when the caller read. */
    method UpdateBooking(t: nat, id: nat, seenStart: int, w: Window, withinWindow: bool) returns (result: Result<nat, CalendarError>)
      requires Valid() && t !in state.txs && (id in bookings ==> CarFree(state, bookings[id].car))
      modifies this
      ensures Valid() && state.txs == old(state).txs && conflictFlags == old(conflictFlags)
      ensures result.Ok? <==>
        && id in old(bookings) && old(bookings)[id].status.Confirmed? && old(bookings)[id].window.start == seenStart
        && withinWindow && Available(old(bookings), old(bookings)[id].car, w, Some(id))
      ensures result.Ok? ==> bookings == old(bookings)[id := old(bookings)[id].(window := w)]
      ensures result.Err? ==> bookings == old(bookings)
    {
      if id !in bookings || !bookings[id].status.Confirmed? || bookings[id].window.start != seenStart || !withinWindow {
        result := Err(StatusNotModifiable);
      } else if !Available(bookings, bookings[id].car, w, Some(id)) {
        result := Err(CarNotAvailable);
      } else {
        RescheduleRun(state, t, id, w);
        bookings := bookings[id := bookings[id].(window := w)];
        state := state.(bookings := bookings);
        result := Ok(id);
      }
    }

    /** The loop: each movable booking is placed where the earlier moves leave room, or reported. */
    method MoveEach(list: seq<AirportBooking>, start: int) returns (windows: map<nat, Window>, conflicted: seq<nat>)
      ensures windows == Synced(bookings, map[], list, start).0 && conflicted == Synced(bookings, map[], list, start).1
    {
      windows, conflicted := map[], [];
      ghost var outcome := Synced(bookings, map[], list, start);
      assert list[0..] == list;
      for i := 0 to |list|
        invariant outcome.0 == Synced(bookings, windows, list[i..], start).0
        invariant outcome.1 == conflicted + Synced(bookings, windows, list[i..], start).1
      {
        var booking := list[i];
        assert list[i..][0] == booking && list[i..][1..] == list[i + 1..];
        if Movable(booking, start) {
          var w := MovedWindow(booking, start);
          if Available(WithWindows(bookings, windows), booking.car, w, Some(booking.id)) {
            windows := windows[booking.id := w];
          } else {
            conflicted := conflicted + [booking.id];
          }
        }
      }
      assert list[|list|..] == [] && conflicted + [] == conflicted;
    }

    /**
      `syncConfirmedAirportBookingWindows`: car by car, what can be moved is moved and its flag
      cleared, and what cannot is flagged. The loop sees its own moves, so two bookings of one car on
      the same flight cannot be moved onto each other.
     */
    method SyncConfirmedAirportBookingWindows(t: nat, list: seq<AirportBooking>, start: int) returns (conflicted: seq<nat>)
      requires Valid() && t !in state.txs && DistinctIds(list)
      requires forall i :: 0 <= i < |list| ==> Known(state, list[i])
      modifies this
      ensures Valid() && state.txs == old(state).txs
      ensures var outcome := Synced(old(bookings), map[], StableSort(list, (a, b) => ByCar(a, b)), start);
        && bookings == WithWindows(old(bookings), outcome.0)
        && conflicted == outcome.1
        && conflictFlags == old(conflictFlags) - outcome.0.Keys + (set id | id in outcome.1)
      // booking by booking: moved to the new start for as long as its leg lasts, or reported and left, or none of its business
      ensures bookings.Keys == old(bookings).Keys && forall i :: 0 <= i < |list| ==> list[i].id in bookings
      ensures forall i ::
        (&& 0 <= i < |list| && list[i].id !in conflicted && list[i].status.Confirmed? && |list[i].legs| == 1
         && list[i].legs[0].start < list[i].legs[0].end && list[i].legs[0].start != start) ==>
          var w := bookings[list[i].id].window;
          w.start == start && w.end - w.start == list[i].legs[0].end - list[i].legs[0].start && list[i].id !in conflictFlags
      ensures forall i :: 0 <= i < |list| && list[i].id in conflicted ==>
        bookings[list[i].id] == old(bookings)[list[i].id] && list[i].id in conflictFlags
      ensures forall i ::
        (&& 0 <= i < |list|
         && (!list[i].status.Confirmed? || |list[i].legs| != 1
             || list[i].legs[0].end <= list[i].legs[0].start || list[i].legs[0].start == start)) ==>
          list[i].id !in conflicted && bookings[list[i].id] == old(bookings)[list[i].id]
      ensures forall id :: id in bookings ==>
        && bookings[id] == old(bookings)[id].(window := bookings[id].window)
        && ((forall i :: 0 <= i < |list| ==> list[i].id != id) ==> bookings[id] == old(bookings)[id])
    {
      SyncEffects(bookings, list, start);
      var bookingsByCar := StableSort(list, (a, b) => ByCar(a, b));
      var windows: map<nat, Window>;
      windows, conflicted := MoveEach(bookingsByCar, start);
      SortedAreKnown(state, list);
      OpenRun(state, t);
      ghost var cars := LoopRun(state, t, {}, map[], bookingsByCar, start);
      CommitRun(state, t, cars, windows);
      conflictFlags := conflictFlags - windows.Keys + (set id | id in conflicted);
      bookings := WithWindows(bookings, windows);
      state := state.(bookings := bookings);
    }
  }
}
