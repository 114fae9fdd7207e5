/**
  The calendar of each car. Transactions take car locks, query the calendar as they see it, prepare
  a new booking or new dates, and commit; status changes, cancellations and deletions happen between
  any two of their statements. Any number of transactions run at once, and none of the writes relies
  on the exclusion constraint of the database, which the machine leaves out on purpose: what is
  proved is that the locks and the query are enough, and exactly where they are not.

  Row locks on single bookings are left out too, which only allows more interleavings.
 */
module BookingCalendar {
  import opened Foundations
  import opened BookingResponse

  const TURNAROUND_MS: int := 2 * 60 * 60 * 1000

  /** Half-open dates in milliseconds. */
  datatype Window = Window(start: int, end: int)

  datatype Booking = Booking(car: nat, window: Window, status: BookingStatus, deleted: bool)
  {
    predicate Blocking()
    {
      !deleted && (status.Pending? || status.Confirmed? || status.Active?)
    }
  }

  /** `buildBookingConflictQueryInterval`: both sides of the candidate are extended. */
  function ConflictQueryInterval(w: Window): Window
  {
    Window(w.start - TURNAROUND_MS, w.end + TURNAROUND_MS)
  }

  /** The rows the availability query returns for a candidate on the raw columns. */
  predicate Conflicts(row: Booking, car: nat, w: Window)
  {
    var q := ConflictQueryInterval(w);
    row.car == car && row.Blocking() && row.window.start < q.end && row.window.end > q.start
  }

  /** No conflicting row other than the booking being moved. */
  predicate Available(bookings: map<nat, Booking>, car: nat, w: Window, exclude: Option<nat>)
  {
    forall id :: id in bookings && Some(id) != exclude ==> !Conflicts(bookings[id], car, w)
  }

  predicate AtLeastTwoHoursApart(a: Window, b: Window)
  {
    a.end + TURNAROUND_MS <= b.start || b.end + TURNAROUND_MS <= a.start
  }

  /** The range [start, end + 2 hours) that the exclusion constraint indexes. */
  predicate InRange(w: Window, t: int) { w.start <= t < w.end + TURNAROUND_MS }

  predicate RangesOverlap(a: Window, b: Window)
  {
    exists t: int {:trigger InRange(a, t)} :: a.start <= t < a.end + TURNAROUND_MS && InRange(a, t) && InRange(b, t)
  }

  /** The raw-column query with both sides buffered finds exactly the rows the exclusion constraint refuses. */
  lemma QueryMatchesConstraint(row: Booking, car: nat, w: Window)
    requires row.car == car && row.Blocking()
    requires row.window.start < row.window.end + TURNAROUND_MS && w.start < w.end + TURNAROUND_MS
    ensures Conflicts(row, car, w) <==> RangesOverlap(row.window, w)
    ensures Conflicts(row, car, w) <==> row.window.end + 7_200_000 > w.start && w.end + 7_200_000 > row.window.start
  {
    if Conflicts(row, car, w) {
      var t := if row.window.start < w.start then w.start else row.window.start;
      assert InRange(row.window, t) && InRange(w, t);
    }
  }

  /** Two blocking bookings of one car without the turnaround between them. */
  predicate Clash(a: Booking, b: Booking)
  {
    a.car == b.car && a.Blocking() && b.Blocking() && !AtLeastTwoHoursApart(a.window, b.window)
  }

  ghost predicate Apart(bookings: map<nat, Booking>)
  {
    forall a, b :: a in bookings && b in bookings && a != b ==> !Clash(bookings[a], bookings[b])
  }

  /** Placing what the query has found free keeps the calendar apart. */
  lemma PlacingKeepsApart(bookings: map<nat, Booking>, id: nat, row: Booking)
    requires Apart(bookings) && Available(bookings, row.car, row.window, Some(id))
    ensures Apart(bookings[id := row])
  {
    forall a | a in bookings && a != id ensures !Clash(bookings[a], row) && !Clash(row, bookings[a]) {
      assert !Conflicts(bookings[a], row.car, row.window);
    }
  }

  /** A row that keeps its dates and does not start blocking brings no two bookings together. */
  lemma RelaxingKeepsApart(bookings: map<nat, Booking>, id: nat, row: Booking)
    requires Apart(bookings) && id in bookings
    requires row.car == bookings[id].car && row.window == bookings[id].window
    requires row.Blocking() ==> bookings[id].Blocking()
    ensures Apart(bookings[id := row])
  {
    forall a | a in bookings && a != id ensures !Clash(bookings[a], row) && !Clash(row, bookings[a]) {
      assert !Clash(bookings[a], bookings[id]) && !Clash(bookings[id], bookings[a]);
    }
  }

  // ----- transactions

  /** A transaction's locks and its uncommitted writes: dates of existing rows, and new rows. */
  datatype Tx = Tx(cars: set<nat>, windows: map<nat, Window>, created: map<nat, Booking>)

  datatype State = State(bookings: map<nat, Booking>, txs: map<nat, Tx>, activating: set<nat>)

  datatype Step =
    | Begin(t: nat)
    | LockCar(t: nat, car: nat)
    | Create(t: nat, id: nat, car: nat, window: Window)
    | Reschedule(t: nat, id: nat, window: Window)
    | Commit(t: nat)
    | Abort(t: nat)
    | Transition(id: nat, status: BookingStatus)
    | SoftDelete(id: nat)
    | ReadForActivation(id: nat)
    | Activate(id: nat)

  /** What a transaction sees: committed rows under its own writes. */
  function View(bookings: map<nat, Booking>, tx: Tx): map<nat, Booking>
  {
    (map id | id in bookings ::
       if id in tx.windows then bookings[id].(window := tx.windows[id]) else bookings[id]) + tx.created
  }

  /** The status changes whose WHERE clause names the old status. */
  predicate Guarded(old_: BookingStatus, new_: BookingStatus)
  {
    || (old_.Pending? && (new_.Confirmed? || new_.Cancelled? || new_.Rejected?))
    || (old_.Confirmed? && (new_.Active? || new_.Cancelled?))
    || (old_.Active? && new_.Completed?)
  }

  /** Bookings run from pending over confirmed and active to completed, and leave that path only before they are active. */
  lemma GuardedChangesAre(old_: BookingStatus, new_: BookingStatus)
    ensures Guarded(old_, new_) <==> (old_, new_) in {
      (Pending, Confirmed), (Pending, BookingStatus.Cancelled), (Pending, Rejected),
      (Confirmed, Active), (Confirmed, BookingStatus.Cancelled), (Active, Completed)}
  {}

  predicate IdInUse(s: State, id: nat)
  {
    id in s.bookings || exists t :: t in s.txs && id in s.txs[t].created
  }

  predicate Enabled(s: State, step: Step)
  {
    match step
    case Begin(t) => t !in s.txs
    case LockCar(t, car) => t in s.txs && forall u :: u in s.txs && u != t ==> car !in s.txs[u].cars
    case Create(t, id, car, w) =>
      && t in s.txs && car in s.txs[t].cars && !IdInUse(s, id)
      && Available(View(s.bookings, s.txs[t]), car, w, None)
    case Reschedule(t, id, w) =>
      && t in s.txs && id in s.bookings && s.bookings[id].car in s.txs[t].cars
      && Available(View(s.bookings, s.txs[t]), s.bookings[id].car, w, Some(id))
    case Commit(t) => t in s.txs
    case Abort(t) => t in s.txs
    case Transition(id, status) => id in s.bookings && Guarded(s.bookings[id].status, status)
    case SoftDelete(id) => id in s.bookings
    case ReadForActivation(id) => id in s.bookings && s.bookings[id].status.Confirmed?
    case Activate(id) => id in s.activating && id in s.bookings
  }

  function SetStatus(s: State, id: nat, status: BookingStatus): State
    requires id in s.bookings
  {
    s.(bookings := s.bookings[id := s.bookings[id].(status := status)])
  }

  function SetTx(s: State, t: nat, tx: Tx): State { s.(txs := s.txs[t := tx]) }

  function Do(s: State, step: Step): State
    requires Enabled(s, step)
  {
    match step
    case Begin(t) => SetTx(s, t, Tx({}, map[], map[]))
    case LockCar(t, car) => SetTx(s, t, s.txs[t].(cars := s.txs[t].cars + {car}))
    case Create(t, id, car, w) => SetTx(s, t, s.txs[t].(created := s.txs[t].created[id := Booking(car, w, Pending, false)]))
    case Reschedule(t, id, w) => SetTx(s, t, s.txs[t].(windows := s.txs[t].windows[id := w]))
    case Commit(t) => s.(bookings := View(s.bookings, s.txs[t]), txs := s.txs - {t})
    case Abort(t) => s.(txs := s.txs - {t})
    case Transition(id, status) => SetStatus(s, id, status)
    case SoftDelete(id) => s.(bookings := s.bookings[id := s.bookings[id].(deleted := true)])
    case ReadForActivation(id) => s.(activating := s.activating + {id})
    case Activate(id) => SetStatus(s, id, Active).(activating := s.activating - {id})
  }

  /**
    The hourly activation reads confirmed bookings and later sets them ACTIVE by id alone. A prompt
    one finds them still holding their place in the calendar.
   */
  predicate Prompt(s: State, step: Step)
  {
    step.Activate? && step.id in s.bookings ==> s.bookings[step.id].Blocking()
  }

  predicate Allowed(s: State, step: Step, prompt: bool)
  {
    Enabled(s, step) && (prompt ==> Prompt(s, step))
  }

  // ----- runs

  ghost predicate ValidRun(s: State, run: seq<Step>, prompt: bool)
    decreases |run|
  {
    run != [] ==> Allowed(s, run[0], prompt) && ValidRun(Do(s, run[0]), run[1..], prompt)
  }

  ghost function After(s: State, run: seq<Step>): State
    decreases |run|
  {
    if run == [] || !Enabled(s, run[0]) then s else After(Do(s, run[0]), run[1..])
  }

  const EMPTY: State := State(map[], map[], {})

  ghost predicate Reachable(s: State, prompt: bool)
  {
    exists run :: ValidRun(EMPTY, run, prompt) && After(EMPTY, run) == s
  }

  lemma {:induction false} AppendStep(s: State, run: seq<Step>, step: Step, prompt: bool)
    requires ValidRun(s, run, prompt) && Allowed(After(s, run), step, prompt)
    ensures ValidRun(s, run + [step], prompt) && After(s, run + [step]) == Do(After(s, run), step)
    decreases |run|
  {
    if run == [] {
      assert run + [step] == [step];
      assert [step][1..] == [];
    } else {
      assert (run + [step])[1..] == run[1..] + [step];
      AppendStep(Do(s, run[0]), run[1..], step, prompt);
    }
  }

  lemma Take(s: State, step: Step, prompt: bool) returns (t: State)
    requires Reachable(s, prompt) && Allowed(s, step, prompt)
    ensures Reachable(t, prompt) && t == Do(s, step)
  {
    var run :| ValidRun(EMPTY, run, prompt) && After(EMPTY, run) == s;
    AppendStep(EMPTY, run, step, prompt);
    t := Do(s, step);
  }

  lemma ReachableFromNothing(prompt: bool)
    ensures Reachable(EMPTY, prompt)
  {
    assert ValidRun(EMPTY, [], prompt) && After(EMPTY, []) == EMPTY;
  }

  // ----- invariants

  ghost predicate LocksExclusive(s: State)
  {
    forall t, u :: t in s.txs && u in s.txs && t != u ==> s.txs[t].cars !! s.txs[u].cars
  }

  /** A transaction writes only rows of cars it has locked. */
  ghost predicate WritesLocked(s: State, tx: Tx)
  {
    && (forall id :: id in tx.windows ==> id in s.bookings && s.bookings[id].car in tx.cars)
    && (forall id :: id in tx.created ==> id !in s.bookings && tx.created[id].car in tx.cars)
  }

  ghost predicate NewIdsDistinct(s: State)
  {
    forall t, u :: t in s.txs && u in s.txs && t != u ==> s.txs[t].created.Keys !! s.txs[u].created.Keys
  }

  ghost predicate Inv(s: State)
  {
    && LocksExclusive(s) && NewIdsDistinct(s)
    && (forall t :: t in s.txs ==> WritesLocked(s, s.txs[t]))
    && Apart(s.bookings)
    && (forall t :: t in s.txs ==> Apart(View(s.bookings, s.txs[t])))
  }

  /** A transaction takes a lock or prepares a write; nothing is committed. */
  lemma TxStepKeepsInv(s: State, t: nat, tx: Tx)
    requires Inv(s) && WritesLocked(s, tx) && Apart(View(s.bookings, tx))
    requires forall u :: u in s.txs && u != t ==> s.txs[u].cars !! tx.cars && s.txs[u].created.Keys !! tx.created.Keys
    ensures Inv(SetTx(s, t, tx))
  {
    var v := SetTx(s, t, tx);
    forall u | u in v.txs ensures WritesLocked(v, v.txs[u]) && Apart(View(v.bookings, v.txs[u])) {
      if u != t { assert WritesLocked(s, s.txs[u]); }
    }
    OtherTxsApart(s, t, tx);
  }

  lemma OtherTxsApart(s: State, t: nat, tx: Tx)
    requires LocksExclusive(s) && NewIdsDistinct(s)
    requires forall u :: u in s.txs && u != t ==> s.txs[u].cars !! tx.cars && s.txs[u].created.Keys !! tx.created.Keys
    ensures LocksExclusive(SetTx(s, t, tx)) && NewIdsDistinct(SetTx(s, t, tx))
  {}

  lemma ViewAfterCreate(bookings: map<nat, Booking>, tx: Tx, id: nat, row: Booking)
    ensures View(bookings, tx.(created := tx.created[id := row])) == View(bookings, tx)[id := row]
  {}

  lemma ViewAfterReschedule(bookings: map<nat, Booking>, tx: Tx, id: nat, w: Window)
    requires id in bookings && id !in tx.created
    ensures View(bookings, tx.(windows := tx.windows[id := w])) == View(bookings, tx)[id := bookings[id].(window := w)]
  {}

  lemma CreateKeepsInv(s: State, t: nat, id: nat, car: nat, w: Window)
    requires Inv(s) && Enabled(s, Create(t, id, car, w))
    ensures Inv(Do(s, Create(t, id, car, w)))
  {
    var tx := s.txs[t];
    var row := Booking(car, w, Pending, false);
    ViewAfterCreate(s.bookings, tx, id, row);
    PlacingKeepsApart(View(s.bookings, tx), id, row);
    CreateStaysLocked(s, t, id, row);
    TxStepKeepsInv(s, t, tx.(created := tx.created[id := row]));
  }

  lemma CreateStaysLocked(s: State, t: nat, id: nat, row: Booking)
    requires LocksExclusive(s) && NewIdsDistinct(s) && t in s.txs && WritesLocked(s, s.txs[t])
    requires !IdInUse(s, id) && row.car in s.txs[t].cars
    ensures var tx := s.txs[t].(created := s.txs[t].created[id := row]);
      && WritesLocked(s, tx)
      && forall u :: u in s.txs && u != t ==> s.txs[u].cars !! tx.cars && s.txs[u].created.Keys !! tx.created.Keys
  {}

  lemma RescheduleKeepsInv(s: State, t: nat, id: nat, w: Window)
    requires Inv(s) && Enabled(s, Reschedule(t, id, w))
    ensures Inv(Do(s, Reschedule(t, id, w)))
  {
    var tx := s.txs[t];
    var row := s.bookings[id].(window := w);
    assert WritesLocked(s, tx);
    ViewAfterReschedule(s.bookings, tx, id, w);
    PlacingKeepsApart(View(s.bookings, tx), id, row);
    RescheduleStaysLocked(s, t, id, w);
    TxStepKeepsInv(s, t, tx.(windows := tx.windows[id := w]));
  }

  lemma RescheduleStaysLocked(s: State, t: nat, id: nat, w: Window)
    requires LocksExclusive(s) && NewIdsDistinct(s) && t in s.txs && WritesLocked(s, s.txs[t])
    requires id in s.bookings && s.bookings[id].car in s.txs[t].cars
    ensures var tx := s.txs[t].(windows := s.txs[t].windows[id := w]);
      && WritesLocked(s, tx)
      && forall u :: u in s.txs && u != t ==> s.txs[u].cars !! tx.cars && s.txs[u].created.Keys !! tx.created.Keys
  {}

  /** A commit touches no row of a car that another transaction has locked. */
  lemma CommitSparesOthers(s: State, t: nat, u: nat)
    requires Inv(s) && t in s.txs && u in s.txs && t != u
    ensures WritesLocked(State(View(s.bookings, s.txs[t]), map[], {}), s.txs[u])
    ensures Apart(View(View(s.bookings, s.txs[t]), s.txs[u]))
  {
    assert WritesLocked(s, s.txs[t]) && WritesLocked(s, s.txs[u]);
    assert s.txs[t].created.Keys !! s.txs[u].created.Keys;
    WritesStayLocked(s.bookings, s.txs[t], s.txs[u]);
    ViewsAgree(s.bookings, s.txs[t], s.txs[u]);
  }

  lemma WritesStayLocked(bookings: map<nat, Booking>, mine: Tx, theirs: Tx)
    requires mine.created.Keys !! theirs.created.Keys
    requires WritesLocked(State(bookings, map[], {}), mine) && WritesLocked(State(bookings, map[], {}), theirs)
    ensures WritesLocked(State(View(bookings, mine), map[], {}), theirs)
  {}

  /** Where two transactions have locked different cars, each row of one's view over the other's is a row of one of them. */
  lemma ViewsAgree(bookings: map<nat, Booking>, mine: Tx, theirs: Tx)
    requires mine.cars !! theirs.cars && mine.created.Keys !! theirs.created.Keys
    requires WritesLocked(State(bookings, map[], {}), mine) && WritesLocked(State(bookings, map[], {}), theirs)
    requires Apart(View(bookings, mine)) && Apart(View(bookings, theirs))
    ensures Apart(View(View(bookings, mine), theirs))
  {
    var both := View(View(bookings, mine), theirs);
    forall a, b | a in both && b in both && a != b ensures !Clash(both[a], both[b]) {
      RowOfOneView(bookings, mine, theirs, a);
      RowOfOneView(bookings, mine, theirs, b);
      if both[a].car == both[b].car {
        if both[a].car in theirs.cars {
          assert !Clash(View(bookings, theirs)[a], View(bookings, theirs)[b]);
        } else {
          assert !Clash(View(bookings, mine)[a], View(bookings, mine)[b]);
        }
      }
    }
  }

  lemma RowOfOneView(bookings: map<nat, Booking>, mine: Tx, theirs: Tx, id: nat)
    requires mine.cars !! theirs.cars && mine.created.Keys !! theirs.created.Keys
    requires WritesLocked(State(bookings, map[], {}), mine) && WritesLocked(State(bookings, map[], {}), theirs)
    requires id in View(View(bookings, mine), theirs)
    ensures var row := View(View(bookings, mine), theirs)[id];
      if row.car in theirs.cars then id in View(bookings, theirs) && row == View(bookings, theirs)[id]
      else id in View(bookings, mine) && row == View(bookings, mine)[id]
  {}

  lemma CommitKeepsInv(s: State, t: nat)
    requires Inv(s) && t in s.txs
    ensures Inv(Do(s, Commit(t)))
  {
    var v := Do(s, Commit(t));
    forall u | u in v.txs
      ensures v.txs[u] == s.txs[u] && WritesLocked(v, s.txs[u]) && Apart(View(v.bookings, s.txs[u]))
    {
      CommitSparesOthers(s, t, u);
    }
  }

  lemma ViewOfUpdate(bookings: map<nat, Booking>, id: nat, row: Booking, tx: Tx)
    requires id in bookings && id !in tx.created && row.window == bookings[id].window
    ensures View(bookings[id := row], tx) == View(bookings, tx)[id := row.(window := View(bookings, tx)[id].window)]
  {}

  lemma RelaxingKeepsView(bookings: map<nat, Booking>, id: nat, row: Booking, tx: Tx)
    requires id in bookings && WritesLocked(State(bookings, map[], {}), tx) && Apart(View(bookings, tx))
    requires row.car == bookings[id].car && row.window == bookings[id].window
    requires row.Blocking() ==> bookings[id].Blocking()
    ensures Apart(View(bookings[id := row], tx))
  {
    ViewOfUpdate(bookings, id, row, tx);
    RelaxingKeepsApart(View(bookings, tx), id, row.(window := View(bookings, tx)[id].window));
  }

  lemma RelaxingKeepsInv(s: State, id: nat, row: Booking, activating: set<nat>)
    requires Inv(s) && id in s.bookings
    requires row.car == s.bookings[id].car && row.window == s.bookings[id].window
    requires row.Blocking() ==> s.bookings[id].Blocking()
    ensures Inv(State(s.bookings[id := row], s.txs, activating))
  {
    RelaxingKeepsApart(s.bookings, id, row);
    var t := State(s.bookings[id := row], s.txs, activating);
    forall u | u in s.txs ensures WritesLocked(t, s.txs[u]) && Apart(View(t.bookings, s.txs[u])) {
      assert WritesLocked(s, s.txs[u]);
      RelaxingKeepsView(s.bookings, id, row, s.txs[u]);
    }
  }

  lemma BeginKeepsInv(s: State, t: nat)
    requires Inv(s) && t !in s.txs
    ensures Inv(Do(s, Begin(t)))
  {
    var tx := Tx({}, map[], map[]);
    assert View(s.bookings, tx) == s.bookings;
    TxStepKeepsInv(s, t, tx);
  }

  lemma LockKeepsInv(s: State, t: nat, car: nat)
    requires Inv(s) && Enabled(s, LockCar(t, car))
    ensures Inv(Do(s, LockCar(t, car)))
  {
    var tx := s.txs[t].(cars := s.txs[t].cars + {car});
    assert WritesLocked(s, s.txs[t]);
    assert View(s.bookings, tx) == View(s.bookings, s.txs[t]);
    TxStepKeepsInv(s, t, tx);
  }

  lemma AbortKeepsInv(s: State, t: nat)
    requires Inv(s) && t in s.txs
    ensures Inv(s.(txs := s.txs - {t}))
  {
    var u := s.(txs := s.txs - {t});
    forall i | i in u.txs ensures u.txs[i] == s.txs[i] && WritesLocked(u, s.txs[i]) { assert WritesLocked(s, s.txs[i]); }
  }

  /** Which activations are on their way concerns nobody else. */
  lemma ActivatingIsFree(s: State, activating: set<nat>)
    requires Inv(s)
    ensures Inv(s.(activating := activating))
  {
    forall t | t in s.txs ensures WritesLocked(s.(activating := activating), s.txs[t]) {
      assert WritesLocked(s, s.txs[t]);
    }
  }

  lemma StatusStepKeepsInv(s: State, step: Step)
    requires Inv(s) && Allowed(s, step, true) && (step.Transition? || step.SoftDelete? || step.Activate?)
    ensures Inv(Do(s, step))
  {
    var row := Do(s, step).bookings[step.id];
    RelaxingKeepsInv(s, step.id, row, Do(s, step).activating);
  }

  lemma StepKeepsInv(s: State, step: Step)
    requires Inv(s) && Allowed(s, step, true)
    ensures Inv(Do(s, step))
  {
    match step
    case Begin(t) => BeginKeepsInv(s, t);
    case LockCar(t, car) => LockKeepsInv(s, t, car);
    case Create(t, id, car, w) => CreateKeepsInv(s, t, id, car, w);
    case Reschedule(t, id, w) => RescheduleKeepsInv(s, t, id, w);
    case Commit(t) => CommitKeepsInv(s, t);
    case Abort(t) => AbortKeepsInv(s, t);
    case ReadForActivation(id) => ActivatingIsFree(s, s.activating + {id});
    case _ => StatusStepKeepsInv(s, step);
  }

  lemma {:induction false} RunKeepsInv(s: State, run: seq<Step>)
    requires Inv(s) && ValidRun(s, run, true)
    ensures Inv(After(s, run))
    decreases |run|
  {
    if run != [] {
      StepKeepsInv(s, run[0]);
      RunKeepsInv(Do(s, run[0]), run[1..]);
    }
  }

  lemma ReachableInv(s: State)
    requires Reachable(s, true)
    ensures Inv(s)
  {
    var run :| ValidRun(EMPTY, run, true) && After(EMPTY, run) == s;
    RunKeepsInv(EMPTY, run);
  }

  // ----- what holds of every run

  /** Any two blocking bookings of one car are at least two hours apart, in every state of every prompt run: the exclusion constraint never has to refuse. */
  lemma NoDoubleBooking(s: State, a: nat, b: nat)
    requires Reachable(s, true) && a in s.bookings && b in s.bookings && a != b
    requires s.bookings[a].car == s.bookings[b].car && !s.bookings[a].deleted && !s.bookings[b].deleted
    requires s.bookings[a].status in {Pending, Confirmed, Active} && s.bookings[b].status in {Pending, Confirmed, Active}
    ensures s.bookings[a].window.end + 7_200_000 <= s.bookings[b].window.start
         || s.bookings[b].window.end + 7_200_000 <= s.bookings[a].window.start
    ensures !RangesOverlap(s.bookings[a].window, s.bookings[b].window)
  {
    ReachableInv(s);
    assert !Clash(s.bookings[a], s.bookings[b]);
  }

  /** What a transaction has checked stays true until it commits, whatever the others commit meanwhile. */
  lemma CheckedStaysAvailable(s: State, t: nat, id: nat)
    requires Reachable(s, true) && t in s.txs && id in View(s.bookings, s.txs[t])
    requires View(s.bookings, s.txs[t])[id].Blocking()
    ensures Available(View(s.bookings, s.txs[t]), View(s.bookings, s.txs[t])[id].car, View(s.bookings, s.txs[t])[id].window, Some(id))
  {
    ReachableInv(s);
    var v := View(s.bookings, s.txs[t]);
    assert Apart(v);
    forall a | a in v && a != id ensures !Conflicts(v[a], v[id].car, v[id].window) {
      assert !Clash(v[a], v[id]);
    }
  }

  /** A late activation keeps the calendar apart exactly when the booking still held its place or the place is still free. */
  lemma ActivationKeepsApartIff(s: State, id: nat)
    requires Reachable(s, true) && Enabled(s, Activate(id)) && !s.bookings[id].deleted
    ensures Apart(Do(s, Activate(id)).bookings) <==>
      s.bookings[id].Blocking() || Available(s.bookings, s.bookings[id].car, s.bookings[id].window, Some(id))
  {
    ReachableInv(s);
    var row := s.bookings[id].(status := Active);
    var t := s.bookings[id := row];
    if s.bookings[id].Blocking() {
      RelaxingKeepsApart(s.bookings, id, row);
    } else if Available(s.bookings, row.car, row.window, Some(id)) {
      PlacingKeepsApart(s.bookings, id, row);
    } else {
      var a :| a in s.bookings && a != id && Conflicts(s.bookings[a], row.car, row.window);
      assert Clash(t[a], t[id]);
    }
  }

  // ----- why the activation must be prompt

  const SLOT: Window := Window(0, 36000000)

  lemma CarLocked(s: State, prompt: bool) returns (t: State)
    requires Reachable(s, prompt) && s.txs == map[]
    ensures Reachable(t, prompt) && t == s.(txs := map[0 := Tx({0}, map[], map[])])
  {
    t := Take(s, Begin(0), prompt);
    t := Take(t, LockCar(0, 0), prompt);
    assert t.txs[0] == Tx({0}, map[], map[]);
  }

  /** One booking through its whole creation transaction. */
  lemma OneBookingCreated(s: State, id: nat, prompt: bool) returns (t: State)
    requires Reachable(s, prompt) && s.txs == map[] && id !in s.bookings && Available(s.bookings, 0, SLOT, None)
    ensures Reachable(t, prompt) && t == s.(bookings := s.bookings[id := Booking(0, SLOT, Pending, false)])
  {
    var row := Booking(0, SLOT, Pending, false);
    t := CarLocked(s, prompt);
    assert View(t.bookings, t.txs[0]) == s.bookings;
    t := Take(t, Create(0, id, 0, SLOT), prompt);
    assert t == s.(txs := map[0 := Tx({0}, map[], map[id := row])]);
    assert View(s.bookings, Tx({0}, map[], map[id := row])) == s.bookings[id := row];
    t := Take(t, Commit(0), prompt);
    assert t.txs == map[];
  }

  /** A booking is read for activation and cancelled before it is activated. */
  lemma CancelledWhileActivating() returns (s: State)
    ensures Reachable(s, false)
    ensures s == State(map[0 := Booking(0, SLOT, Cancelled, false)], map[], {0})
  {
    ReachableFromNothing(false);
    s := OneBookingCreated(EMPTY, 0, false);
    s := Take(s, Transition(0, Confirmed), false);
    s := Take(s, ReadForActivation(0), false);
    s := Take(s, Transition(0, Cancelled), false);
    assert s.bookings == map[0 := Booking(0, SLOT, Cancelled, false)];
  }

  /** Without the database constraint, a late activation would put two bookings on one car at the same time. */
  lemma LateActivationDoubleBooks() returns (s: State)
    ensures Reachable(s, false)
    ensures 0 in s.bookings && 1 in s.bookings && Clash(s.bookings[0], s.bookings[1])
  {
    s := CancelledWhileActivating();
    s := OneBookingCreated(s, 1, false);
    s := Take(s, Activate(0), false);
  }
}
