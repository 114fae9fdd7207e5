/**
  The legs of a booking. Times are integer milliseconds in UTC, so a day is always 24 hours;
  setting hours, minutes and seconds leaves the milliseconds as they were.
 */
module BookingLegs {
  import opened Foundations

  const SECOND_MS: int := 1000
  const MINUTE_MS: int := 60 * 1000
  const HOUR_MS: int := 60 * 60 * 1000
  const DAY_MS: int := 24 * 60 * 60 * 1000

  const DAY_BOOKING_DURATION_HOURS: int := 12
  const NIGHT_START_HOUR: int := 23
  const NIGHT_END_HOUR: int := 5
  const AIRPORT_PICKUP_BUFFER_MINUTES: int := 40
  const DEFAULT_DRIVE_MINUTES: int := 120

  datatype Leg = Leg(date: int, start: int, end: int)

  datatype PickupTime = PickupTime(hours: int, minutes: int)
  {
    predicate Valid() { 0 <= hours < 24 && 0 <= minutes < 60 }
  }

  datatype LegInput =
    | Day(startDate: int, endDate: int, pickup: PickupTime)
    | Night(startDate: int, endDate: int)
    | FullDay(startDate: int, endDate: int, pickup: PickupTime)
    | AirportPickup(startDate: int, endDate: int, flightArrival: Option<int>, driveMinutes: Option<int>)

  // ----- the clock

  function DayStart(t: int): int { t - t % DAY_MS }

  /** `setSeconds(setMinutes(setHours(t, hours), minutes), 0)`. */
  function AtTime(t: int, hours: int, minutes: int): int
  {
    DayStart(t) + hours * HOUR_MS + minutes * MINUTE_MS + t % SECOND_MS
  }

  function Ceil(a: int, b: int): int
    requires b > 0
  {
    (a + b - 1) / b
  }

  function AtLeastOne(n: int): (m: nat) { if n < 1 then 1 else n }

  /** The 12-hour clock of a pickup time: 12 AM is midnight and 12 PM is noon. */
  function ParsePickupTime(hour: int, minutes: int, isPM: bool): PickupTime
  {
    PickupTime(if isPM && hour != 12 then hour + 12 else if !isPM && hour == 12 then 0 else hour, minutes)
  }

  /** An hour counts from midnight or noon, twelve as none, and every time of day is written in exactly one way. */
  lemma PickupTimesAreUnique(h: int, m: int, pm: bool, h': int, m': int, pm': bool)
    requires 1 <= h <= 12 && 0 <= m < 60 && 1 <= h' <= 12 && 0 <= m' < 60
    ensures ParsePickupTime(h, m, pm).Valid()
    ensures ParsePickupTime(h, m, pm).hours == h % 12 + (if pm then 12 else 0) && ParsePickupTime(h, m, pm).minutes == m
    ensures ParsePickupTime(h, m, pm) == ParsePickupTime(h', m', pm') <==> h == h' && m == m' && pm == pm'
  {}

  /** `getEffectiveEndDate`: an end at exactly midnight belongs to the day before, but never to before the start. */
  function EffectiveEndDate(endDate: int, startDate: int): int
  {
    if endDate % DAY_MS == 0 then if endDate - 1 < startDate then startDate else endDate - 1 else endDate
  }

  // ----- counts

  function NightLegCount(startDate: int, endDate: int): nat
  {
    AtLeastOne(Ceil(EffectiveEndDate(endDate, startDate) - startDate, DAY_MS))
  }

  function FullDayLegCount(startDate: int, endDate: int, base: int): nat
  {
    AtLeastOne(Ceil(EffectiveEndDate(endDate, startDate) - base, DAY_MS))
  }

  /** The midnights from that of `from` to the last one not after `to`. */
  function Midnights(from: int, to: int): seq<int>
  {
    var first := DayStart(from);
    var n := if to < first then 0 else (to - first) / DAY_MS + 1;
    seq(n, i requires 0 <= i < n => first + i * DAY_MS)
  }

  function Reverse(s: seq<int>): seq<int> { seq(|s|, i requires 0 <= i < |s| => s[|s| - 1 - i]) }

  /** `getDayLegDates`; an interval given backwards is listed backwards. */
  function DayLegDates(startDate: int, endDate: int): seq<int>
  {
    var end := EffectiveEndDate(endDate, startDate);
    if startDate > end then Reverse(Midnights(end, startDate)) else Midnights(startDate, end)
  }

  /** `calculateLegCount`. */
  function LegCount(input: LegInput): nat
  {
    match input
    case AirportPickup(_, _, _, _) => 1
    case Day(s, e, _) => |DayLegDates(s, e)|
    case Night(s, e) => NightLegCount(s, e)
    case FullDay(s, e, _) => FullDayLegCount(s, e, s)
  }

  // ----- legs

  function DayLeg(day: int, pickup: PickupTime): Leg
  {
    var start := AtTime(day, pickup.hours, pickup.minutes);
    Leg(day, start, start + DAY_BOOKING_DURATION_HOURS * HOUR_MS)
  }

  function NightLeg(startDate: int, i: int): Leg
  {
    var night := startDate + i * DAY_MS;
    Leg(night, AtTime(night, NIGHT_START_HOUR, 0), AtTime(night + DAY_MS, NIGHT_END_HOUR, 0))
  }

  function FullDayLeg(base: int, i: int): Leg
  {
    var start := base + i * 24 * HOUR_MS;
    Leg(start, start, start + 24 * HOUR_MS)
  }

  function AirportLeg(startDate: int, flightArrival: Option<int>, driveMinutes: Option<int>): Leg
  {
    var base := if flightArrival.Some? then flightArrival.value else startDate;
    var start := base + AIRPORT_PICKUP_BUFFER_MINUTES * MINUTE_MS;
    var drive := if driveMinutes.Some? then driveMinutes.value else DEFAULT_DRIVE_MINUTES;
    Leg(startDate, start, start + drive * 6 * MINUTE_MS / 5)
  }

  function BaseStart(startDate: int, pickup: PickupTime): int { AtTime(startDate, pickup.hours, pickup.minutes) }

  function LegsFor(input: LegInput): seq<Leg>
  {
    match input
    case Day(s, e, pickup) =>
      var days := DayLegDates(s, e);
      seq(|days|, i requires 0 <= i < |days| => DayLeg(days[i], pickup))
    case Night(s, e) => seq(NightLegCount(s, e), i => NightLeg(s, i))
    case FullDay(s, e, pickup) =>
      var base := BaseStart(s, pickup);
      seq(FullDayLegCount(s, e, base), i => FullDayLeg(base, i))
    case AirportPickup(s, _, arrival, drive) => [AirportLeg(s, arrival, drive)]
  }

  /** The loop of date-fns' `eachDayOfInterval`. */
  method EachDayOfInterval(start: int, end: int) returns (dates: seq<int>)
    ensures dates == if start > end then Reverse(Midnights(end, start)) else Midnights(start, end)
  {
    var reversed := start > end;
    var endTime := if reversed then start else end;
    ghost var first := DayStart(if reversed then end else start);
    var date := DayStart(if reversed then end else start);
    dates := [];
    while date <= endTime
      invariant date == first + |dates| * DAY_MS
      invariant date - DAY_MS <= endTime
      invariant forall i :: 0 <= i < |dates| ==> dates[i] == first + i * DAY_MS
      decreases endTime - date
    {
      dates := dates + [date];
      date := date + DAY_MS;
    }
    assert dates == Midnights(if reversed then end else start, endTime);
    if reversed {
      dates := Reverse(dates);
    }
  }

  method GenerateNightLegs(startDate: int, endDate: int) returns (legs: seq<Leg>)
    ensures legs == LegsFor(Night(startDate, endDate))
  {
    legs := [];
    var numberOfNights := NightLegCount(startDate, endDate);
    for i := 0 to numberOfNights
      invariant |legs| == i
      invariant forall k :: 0 <= k < i ==> legs[k] == NightLeg(startDate, k)
    {
      var nightDate := startDate + i * DAY_MS;
      var legStartTime := AtTime(nightDate, NIGHT_START_HOUR, 0);
      var nextDay := nightDate + DAY_MS;
      var legEndTime := AtTime(nextDay, NIGHT_END_HOUR, 0);
      legs := legs + [Leg(nightDate, legStartTime, legEndTime)];
    }
  }

  method GenerateFullDayLegs(startDate: int, endDate: int, pickup: PickupTime) returns (legs: seq<Leg>)
    ensures legs == LegsFor(FullDay(startDate, endDate, pickup))
  {
    var baseStartTime := AtTime(startDate, pickup.hours, pickup.minutes);
    var numberOfLegs := FullDayLegCount(startDate, endDate, baseStartTime);
    legs := [];
    for i := 0 to numberOfLegs
      invariant |legs| == i
      invariant forall k :: 0 <= k < i ==> legs[k] == FullDayLeg(baseStartTime, k)
    {
      var legStartTime := baseStartTime + i * 24 * HOUR_MS;
      var legEndTime := legStartTime + 24 * HOUR_MS;
      legs := legs + [Leg(legStartTime, legStartTime, legEndTime)];
    }
  }

  /** `generateLegs`. */
  method GenerateLegs(input: LegInput) returns (legs: seq<Leg>)
    ensures legs == LegsFor(input)
  {
    match input {
      case Day(s, e, pickup) =>
        var end := EffectiveEndDate(e, s);
        var days := EachDayOfInterval(s, end);
        legs := seq(|days|, i requires 0 <= i < |days| => DayLeg(days[i], pickup));
      case Night(s, e) =>
        legs := GenerateNightLegs(s, e);
      case FullDay(s, e, pickup) =>
        legs := GenerateFullDayLegs(s, e, pickup);
      case AirportPickup(s, _, arrival, drive) =>
        legs := [AirportLeg(s, arrival, drive)];
    }
  }

  /** An airport leg begins forty minutes after the flight lands, and allows six fifths of the driving time, two hours unless it is known. */
  lemma AirportLegFollowsTheFlight(startDate: int, endDate: int, flightArrival: Option<int>, driveMinutes: Option<int>)
    ensures var legs := LegsFor(AirportPickup(startDate, endDate, flightArrival, driveMinutes));
      && |legs| == 1 && legs[0].date == startDate
      && (flightArrival.Some? ==> legs[0].start - flightArrival.value == 2_400_000)
      && (flightArrival.None? ==> legs[0].start - startDate == 2_400_000)
      && (driveMinutes.Some? ==> 5 * (legs[0].end - legs[0].start) == 6 * driveMinutes.value * 60_000)
      && (driveMinutes.None? ==> legs[0].end - legs[0].start == 8_640_000)
  {}

  /** A day leg begins at the pickup time of its date and lasts twelve hours. */
  lemma DayLegsStartAtPickup(startDate: int, endDate: int, pickup: PickupTime, i: nat)
    requires i < |LegsFor(Day(startDate, endDate, pickup))|
    ensures var leg := LegsFor(Day(startDate, endDate, pickup))[i];
      && leg.date == DayLegDates(startDate, endDate)[i] && leg.date % 86_400_000 == 0
      && leg.start == leg.date + pickup.hours * 3_600_000 + pickup.minutes * 60_000
      && leg.end == leg.start + 43_200_000
  {
    var d := DayLegDates(startDate, endDate)[i];
    var end := EffectiveEndDate(endDate, startDate);
    if startDate <= end {
      ListedIsMidnight(startDate, end, d);
    } else {
      assert d in Midnights(end, startDate);
      ListedIsMidnight(end, startDate, d);
    }
    RemainderIs(d, SECOND_MS, d / DAY_MS * 86400, 0);
  }

  /** A night leg begins at 23:00 of its own day, to the millisecond it was asked for within its second, and ends at 05:00 of the next. */
  lemma NightLegsStartAtEleven(startDate: int, endDate: int, i: nat)
    requires i < |LegsFor(Night(startDate, endDate))|
    ensures var leg := LegsFor(Night(startDate, endDate))[i];
      && leg.date == startDate + i * 86_400_000
      && leg.start - startDate % 1000 == leg.date - startDate % 86_400_000 + 82_800_000
      && leg.end == leg.start + 21_600_000
  {
    ShiftByDays(startDate, i);
    ShiftByDays(startDate + i * DAY_MS, 1);
  }

  /** Full-day legs begin at the pickup time of the first day, and one starts every twenty-four hours. */
  lemma FullDayLegsStartAtPickup(startDate: int, endDate: int, pickup: PickupTime, i: nat)
    requires i < |LegsFor(FullDay(startDate, endDate, pickup))|
    ensures var leg := LegsFor(FullDay(startDate, endDate, pickup))[i];
      && leg.start == startDate - startDate % 86_400_000 + pickup.hours * 3_600_000 + pickup.minutes * 60_000 + startDate % 1000
                      + i * 86_400_000
      && leg.date == leg.start && leg.end == leg.start + 86_400_000
  {}

  // ----- what the legs are

  ghost predicate OrderedAndDisjoint(legs: seq<Leg>)
  {
    && (forall i :: 0 <= i < |legs| ==> legs[i].start < legs[i].end)
    && (forall i, j :: 0 <= i < j < |legs| ==> legs[i].end <= legs[j].start)
  }

  lemma RemainderIs(x: int, m: int, q: int, r: int)
    requires m > 0 && x == q * m + r && 0 <= r < m
    ensures x % m == r && x / m == q
  {
    var d := x / m - q;
    assert x == (x / m) * m + x % m;
    assert d * m == r - x % m;
    Multiples(d, m);
  }

  lemma Multiples(d: int, m: int)
    requires m > 0
    ensures d >= 1 ==> d * m >= m
    ensures d <= -1 ==> d * m <= -m
  {}

  lemma ShiftByDays(t: int, n: int)
    ensures DayStart(t + n * DAY_MS) == DayStart(t) + n * DAY_MS
    ensures (t + n * DAY_MS) % SECOND_MS == t % SECOND_MS
  {
    RemainderIs(t + n * DAY_MS, DAY_MS, t / DAY_MS + n, t % DAY_MS);
    RemainderIs(t + n * DAY_MS, SECOND_MS, t / SECOND_MS + n * 86400, t % SECOND_MS);
  }

  /** Night legs run from 23:00 to 05:00, six hours each, one per day. */
  lemma NightLegsAreNights(startDate: int, i: int)
    ensures NightLeg(startDate, i).end - NightLeg(startDate, i).start == 6 * HOUR_MS
    ensures NightLeg(startDate, i).start == NightLeg(startDate, 0).start + i * DAY_MS
  {
    ShiftByDays(startDate, i);
    ShiftByDays(startDate, 0);
    ShiftByDays(startDate + i * DAY_MS, 1);
  }

  lemma DayLegsAreDays(day: int, i: int, pickup: PickupTime)
    ensures DayLeg(day + i * DAY_MS, pickup).start == DayLeg(day, pickup).start + i * DAY_MS
  {
    ShiftByDays(day, i);
  }

  lemma {:induction false} MoreDaysLater(i: int, j: int)
    requires i < j
    ensures i * DAY_MS + DAY_MS <= j * DAY_MS
  {}

  lemma NightLegsOrdered(startDate: int, endDate: int)
    ensures OrderedAndDisjoint(LegsFor(Night(startDate, endDate)))
  {
    var legs := LegsFor(Night(startDate, endDate));
    forall i | 0 <= i < |legs| ensures legs[i].end == legs[i].start + 6 * HOUR_MS && legs[i].start == legs[0].start + i * DAY_MS {
      NightLegsAreNights(startDate, i);
    }
    forall i, j | 0 <= i < j < |legs| ensures legs[i].end <= legs[j].start { MoreDaysLater(i, j); }
  }

  lemma FullDayLegsOrdered(startDate: int, endDate: int, pickup: PickupTime)
    ensures OrderedAndDisjoint(LegsFor(FullDay(startDate, endDate, pickup)))
  {
    var legs := LegsFor(FullDay(startDate, endDate, pickup));
    forall i, j | 0 <= i < j < |legs| ensures legs[i].end <= legs[j].start { MoreDaysLater(i, j); }
  }

  lemma ForwardDayLegsOrdered(startDate: int, endDate: int, pickup: PickupTime)
    requires startDate <= EffectiveEndDate(endDate, startDate)
    ensures OrderedAndDisjoint(LegsFor(Day(startDate, endDate, pickup)))
  {
    var legs := LegsFor(Day(startDate, endDate, pickup));
    var days := DayLegDates(startDate, endDate);
    forall i | 0 <= i < |legs| ensures legs[i].start == legs[0].start + i * DAY_MS {
      assert days[i] == days[0] + i * DAY_MS;
      DayLegsAreDays(days[0], i, pickup);
    }
    forall i, j | 0 <= i < j < |legs| ensures legs[i].end <= legs[j].start { MoreDaysLater(i, j); }
  }

  lemma BackwardDayLegsUnordered(startDate: int, endDate: int, pickup: PickupTime)
    requires EffectiveEndDate(endDate, startDate) < DayStart(startDate)
    ensures !OrderedAndDisjoint(LegsFor(Day(startDate, endDate, pickup)))
  {
    var legs := LegsFor(Day(startDate, endDate, pickup));
    var days := DayLegDates(startDate, endDate);
    BackwardsListsTwo(EffectiveEndDate(endDate, startDate), startDate);
    assert days[0] == days[1] + DAY_MS;
    DayLegsAreDays(days[1], 1, pickup);
    assert legs[0].start == legs[1].start + DAY_MS;
  }

  /** Day legs are in order exactly when the interval is not given backwards over a midnight. */
  lemma DayLegsOrderedIff(startDate: int, endDate: int, pickup: PickupTime)
    ensures OrderedAndDisjoint(LegsFor(Day(startDate, endDate, pickup)))
       <==> DayStart(startDate) <= EffectiveEndDate(endDate, startDate)
  {
    var end := EffectiveEndDate(endDate, startDate);
    if startDate <= end {
      ForwardDayLegsOrdered(startDate, endDate, pickup);
    } else if DayStart(startDate) <= end {
      SameDay(end, startDate);
      assert |LegsFor(Day(startDate, endDate, pickup))| == 1;
    } else {
      BackwardDayLegsUnordered(startDate, endDate, pickup);
    }
  }

  lemma SameDay(from: int, to: int)
    requires DayStart(to) <= from <= to
    ensures |Midnights(from, to)| == 1
  {
    assert DayStart(from) == DayStart(to);
  }

  lemma BackwardsListsTwo(from: int, to: int)
    requires from < DayStart(to)
    ensures |Midnights(from, to)| >= 2
  {
    assert to - DayStart(from) >= DAY_MS;
  }

  /** Every booking that starts before it ends gets its legs in order and without overlap. */
  lemma LegsAreOrderedAndDisjoint(input: LegInput)
    requires input.startDate < input.endDate
    requires input.AirportPickup? ==> input.driveMinutes.None? || input.driveMinutes.value > 0
    ensures OrderedAndDisjoint(LegsFor(input))
  {
    match input
    case Day(s, e, pickup) => DayLegsOrderedIff(s, e, pickup);
    case Night(s, e) => NightLegsOrdered(s, e);
    case FullDay(s, e, pickup) => FullDayLegsOrdered(s, e, pickup);
    case AirportPickup(s, e, arrival, drive) =>
  }

  /** The full-day legs tile the time from the pickup, and no fewer of them would reach the effective end. */
  lemma FullDayLegsTile(startDate: int, endDate: int, pickup: PickupTime)
    ensures var legs := LegsFor(FullDay(startDate, endDate, pickup));
      var base := BaseStart(startDate, pickup);
      var end := EffectiveEndDate(endDate, startDate);
      && |legs| >= 1 && legs[0].start == base
      && (forall i :: 0 <= i < |legs| - 1 ==> legs[i].end == legs[i + 1].start)
      && legs[|legs| - 1].end == base + |legs| * DAY_MS && end <= legs[|legs| - 1].end
      && (forall n: nat :: 1 <= n && end <= base + n * DAY_MS ==> |legs| <= n)
  {
    var base := BaseStart(startDate, pickup);
    var end := EffectiveEndDate(endDate, startDate);
    CeilIsLeast(end - base);
    forall n: nat | 1 <= n && end <= base + n * DAY_MS ensures FullDayLegCount(startDate, endDate, base) <= n {
      assert end - base <= n * DAY_MS;
    }
  }

  /** The ceiling of a number of days is the least whole number that is enough. */
  lemma CeilIsLeast(a: int)
    ensures a <= Ceil(a, DAY_MS) * DAY_MS
    ensures forall n: int :: a <= n * DAY_MS ==> Ceil(a, DAY_MS) <= n
  {}

  /**
    The count equals the number of legs generated from the same dates if and only if, for full days,
    each number of days reaches the end from the start exactly when it does from the pickup.
   */
  lemma CountMatchesLegsIff(input: LegInput)
    ensures |LegsFor(input)| == LegCount(input) <==>
      (input.FullDay? ==> SameReach(input.startDate, BaseStart(input.startDate, input.pickup), input.endDate))
  {
    if input.FullDay? {
      var base := BaseStart(input.startDate, input.pickup);
      var end := EffectiveEndDate(input.endDate, input.startDate);
      ReachIsCount(input.startDate, end);
      ReachIsCount(base, end);
      if |LegsFor(input)| != LegCount(input) {
        var n := if |LegsFor(input)| < LegCount(input) then |LegsFor(input)| else LegCount(input);
        assert Reaches(input.startDate, end, n) != Reaches(base, end, n);
      }
    }
  }

  predicate Reaches(from: int, end: int, n: nat) { end <= from + n * DAY_MS }

  /** No number of days tells the two starts apart. */
  ghost predicate SameReach(startDate: int, base: int, endDate: int)
  {
    var end := EffectiveEndDate(endDate, startDate);
    forall n: nat :: 1 <= n ==> (Reaches(startDate, end, n) <==> Reaches(base, end, n))
  }

  lemma ReachIsCount(from: int, end: int)
    ensures forall n: nat :: 1 <= n ==> (Reaches(from, end, n) <==> AtLeastOne(Ceil(end - from, DAY_MS)) <= n)
  {
    CeilIsLeast(end - from);
    forall n: nat | 1 <= n ensures Reaches(from, end, n) <==> AtLeastOne(Ceil(end - from, DAY_MS)) <= n {
      CeilCovers(end - from, n);
    }
  }

  lemma CeilCovers(a: int, n: int)
    ensures a <= n * DAY_MS <==> Ceil(a, DAY_MS) <= n
  {}

  /** The effective end lies before the start exactly when the end does and is not at midnight. */
  lemma EffectiveEndNotBeforeStartIff(endDate: int, startDate: int)
    ensures startDate <= EffectiveEndDate(endDate, startDate) <==> endDate % DAY_MS == 0 || startDate <= endDate
  {}

  lemma EffectiveEndCanPrecedeStart()
    ensures EffectiveEndDate(HOUR_MS, DAY_MS) == HOUR_MS < DAY_MS
  {}

  // ----- from dates to a window

  /** What a customer asks for: two dates, each at midnight, and a time of day. */
  datatype Asked =
    | AskedDay(from: int, to: int, pickup: PickupTime)
    | AskedNight(from: int, to: int)
    | AskedFullDay(from: int, to: int, pickup: PickupTime)
  {
    predicate Valid()
    {
      from % DAY_MS == 0 && to % DAY_MS == 0 && from <= to && (!AskedNight? ==> pickup.Valid())
    }
  }

  function NightEnd(from: int, to: int): int
  {
    var end := DayStart(to) + NIGHT_END_HOUR * HOUR_MS;
    if end <= DayStart(from) + NIGHT_START_HOUR * HOUR_MS then end + DAY_MS else end
  }

  function TimeOf(pickup: PickupTime): int { pickup.hours * HOUR_MS + pickup.minutes * MINUTE_MS }

  /** `normalizeBookingTimeWindow`: the window a booking is made of. */
  function Normalized(a: Asked): LegInput
  {
    match a
    case AskedDay(from, to, pickup) =>
      // Hours past midnight run over into the next day.
      Day(DayStart(from) + TimeOf(pickup), DayStart(to) + TimeOf(pickup) + DAY_BOOKING_DURATION_HOURS * HOUR_MS, pickup)
    case AskedNight(from, to) => Night(DayStart(from) + NIGHT_START_HOUR * HOUR_MS, NightEnd(from, to))
    case AskedFullDay(from, to, pickup) =>
      var start := DayStart(from) + TimeOf(pickup);
      FullDay(start, start + 24 * AtLeastOne(to / DAY_MS - from / DAY_MS) * HOUR_MS, pickup)
  }

  /** The assistant's estimate counts legs on the dates as they were asked for. */
  function Raw(a: Asked): LegInput
  {
    match a
    case AskedDay(from, to, pickup) => Day(from, to, pickup)
    case AskedNight(from, to) => Night(from, to)
    case AskedFullDay(from, to, pickup) => FullDay(from, to, pickup)
  }

  /** Days asked for, as the difference of the dates. */
  function DaysAsked(a: Asked): int { a.to / DAY_MS - a.from / DAY_MS }

  lemma WholeDays(a: Asked)
    requires a.Valid()
    ensures a.to == a.from + DaysAsked(a) * DAY_MS && DaysAsked(a) >= 0
  {}

  lemma CeilOf(n: int, r: int)
    requires 0 <= r < DAY_MS
    ensures Ceil(n * DAY_MS - r, DAY_MS) == n
  {
    RemainderIs(n * DAY_MS - r + DAY_MS - 1, DAY_MS, n, DAY_MS - 1 - r);
  }

  lemma MidnightsFrom(first: int, days: nat, r: int, s: int)
    requires first % DAY_MS == 0 && 0 <= r < DAY_MS && 0 <= s < DAY_MS
    ensures DayStart(first + s) == first
    ensures first + days * DAY_MS + r >= first + s ==> |Midnights(first + s, first + days * DAY_MS + r)| == days + 1
  {
    RemainderIs(first + s, DAY_MS, first / DAY_MS, s);
    RemainderIs(days * DAY_MS + r, DAY_MS, days, r);
  }

  /** What the dates as asked for count. */
  lemma RawCount(a: Asked)
    requires a.Valid()
    ensures LegCount(Raw(a)) == AtLeastOne(DaysAsked(a))
  {
    WholeDays(a);
    var n := DaysAsked(a);
    if n == 0 {
      if a.AskedDay? { MidnightsFrom(a.from, 0, 0, 0); }
    } else {
      MidnightIsMidnight(a);
      if a.AskedDay? { MidnightsFrom(a.from, n - 1, DAY_MS - 1, 0); } else { CeilOf(n, 1); }
    }
  }

  lemma MidnightIsMidnight(a: Asked)
    requires a.Valid() && DaysAsked(a) >= 1
    ensures EffectiveEndDate(a.to, a.from) == a.from + (DaysAsked(a) - 1) * DAY_MS + DAY_MS - 1
  {
    WholeDays(a);
  }

  lemma FullDayWindow(a: Asked)
    requires a.Valid() && a.AskedFullDay?
    ensures var w := Normalized(a);
      && BaseStart(w.startDate, a.pickup) == w.startDate
      && w.endDate == w.startDate + AtLeastOne(DaysAsked(a)) * DAY_MS
  {
    var time := TimeOf(a.pickup);
    RemainderIs(a.from + time, DAY_MS, a.from / DAY_MS, time);
    RemainderIs(a.from + time, SECOND_MS, a.from / DAY_MS * 86400 + a.pickup.hours * 3600 + a.pickup.minutes * 60, 0);
  }

  /** A full-day booking has a leg for each day asked for, at least one. */
  lemma FullDayBooked(a: Asked)
    requires a.Valid() && a.AskedFullDay?
    ensures |LegsFor(Normalized(a))| == AtLeastOne(DaysAsked(a)) == LegCount(Normalized(a))
  {
    var n := AtLeastOne(DaysAsked(a));
    var w := Normalized(a);
    FullDayWindow(a);
    var past := EffectiveEndDate(w.endDate, w.startDate) - w.startDate;
    assert past == n * DAY_MS || past == n * DAY_MS - 1;
    CeilOf(n, 0);
    CeilOf(n, 1);
  }

  lemma NightWindow(a: Asked)
    requires a.Valid() && a.AskedNight?
    ensures var w := Normalized(a);
      w.startDate == a.from + 23 * HOUR_MS && w.endDate == a.from + AtLeastOne(DaysAsked(a)) * DAY_MS + 5 * HOUR_MS
  {
    WholeDays(a);
    if DaysAsked(a) >= 1 { assert a.to >= a.from + DAY_MS; }
  }

  /** A night booking has a leg for each night between the dates, at least one. */
  lemma NightBooked(a: Asked)
    requires a.Valid() && a.AskedNight?
    ensures |LegsFor(Normalized(a))| == AtLeastOne(DaysAsked(a)) == LegCount(Normalized(a))
  {
    var n := AtLeastOne(DaysAsked(a));
    var w := Normalized(a);
    NightWindow(a);
    RemainderIs(w.endDate, DAY_MS, a.from / DAY_MS + n, 5 * HOUR_MS);
    assert EffectiveEndDate(w.endDate, w.startDate) - w.startDate == n * DAY_MS - 18 * HOUR_MS;
    CeilOf(n, 18 * HOUR_MS);
  }

  /** A day booking ends on its last day, or on the day after when its pickup is past noon. */
  lemma DayWindowEnds(a: Asked)
    requires a.Valid() && a.AskedDay?
    ensures var w := Normalized(a); var last := DaysAsked(a) + (if TimeOf(a.pickup) <= 12 * HOUR_MS then 0 else 1);
      w.startDate == a.from + TimeOf(a.pickup) && w.startDate <= EffectiveEndDate(w.endDate, w.startDate)
      && a.from + last * DAY_MS < EffectiveEndDate(w.endDate, w.startDate) < a.from + (last + 1) * DAY_MS
  {
    WholeDays(a);
    var w := Normalized(a);
    var n := DaysAsked(a);
    var time := TimeOf(a.pickup);
    assert w.endDate == a.from + n * DAY_MS + time + 12 * HOUR_MS;
    var first := a.from / DAY_MS;
    if time < 12 * HOUR_MS {
      RemainderIs(w.endDate, DAY_MS, first + n, time + 12 * HOUR_MS);
    } else {
      RemainderIs(w.endDate, DAY_MS, first + n + 1, time - 12 * HOUR_MS);
    }
  }

  /** A day booking has a leg for both its first and its last day, and one more when the last runs past midnight. */
  lemma DayBooked(a: Asked)
    requires a.Valid() && a.AskedDay?
    ensures |LegsFor(Normalized(a))| == LegCount(Normalized(a))
         == DaysAsked(a) + (if TimeOf(a.pickup) <= 12 * HOUR_MS then 1 else 2)
  {
    WholeDays(a);
    DayWindowEnds(a);
    var w := Normalized(a);
    var last := DaysAsked(a) + (if TimeOf(a.pickup) <= 12 * HOUR_MS then 0 else 1);
    MidnightsFrom(a.from, last, EffectiveEndDate(w.endDate, w.startDate) - a.from - last * DAY_MS, TimeOf(a.pickup));
  }

  /** Whatever is asked for, the count of the normalised window is the number of legs generated for it. */
  lemma NormalizedCountMatches(a: Asked)
    requires a.Valid()
    ensures |LegsFor(Normalized(a))| == LegCount(Normalized(a))
  {
    match a
    case AskedDay(_, _, _) => DayBooked(a);
    case AskedNight(_, _) => NightBooked(a);
    case AskedFullDay(_, _, _) => FullDayBooked(a);
  }

  /**
    The assistant's estimate is the number of legs the booking will have if and only if it is for
    nights or full days, or for a single day with a pickup no later than noon.
   */
  lemma EstimateIsRightIff(a: Asked)
    requires a.Valid()
    ensures LegCount(Raw(a)) == |LegsFor(Normalized(a))| <==>
      (a.AskedDay? ==> a.from == a.to && TimeOf(a.pickup) <= 12 * HOUR_MS)
  {
    RawCount(a);
    WholeDays(a);
    match a
    case AskedDay(_, _, _) => DayBooked(a);
    case AskedNight(_, _) => NightBooked(a);
    case AskedFullDay(_, _, _) => FullDayBooked(a);
  }

  /** Two days asked for are estimated as one leg and booked as two. */
  lemma TwoDaysAreEstimatedAsOne()
    ensures var a := AskedDay(0, DAY_MS, PickupTime(7, 0));
      a.Valid() && LegCount(Raw(a)) == 1 && |LegsFor(Normalized(a))| == 2
  {
    var a := AskedDay(0, DAY_MS, PickupTime(7, 0));
    RawCount(a);
    DayBooked(a);
  }

  /** The day legs' dates are exactly the midnights from the first day to the effective end. */
  lemma DayLegDatesAreTheDays(startDate: int, endDate: int, d: int)
    requires startDate <= EffectiveEndDate(endDate, startDate)
    ensures d in DayLegDates(startDate, endDate) <==>
      d % DAY_MS == 0 && DayStart(startDate) <= d <= EffectiveEndDate(endDate, startDate)
  {
    if d in DayLegDates(startDate, endDate) { ListedIsMidnight(startDate, EffectiveEndDate(endDate, startDate), d); }
    if d % DAY_MS == 0 && DayStart(startDate) <= d <= EffectiveEndDate(endDate, startDate) {
      MidnightIsListed(startDate, EffectiveEndDate(endDate, startDate), d);
    }
  }

  lemma ListedIsMidnight(from: int, to: int, d: int)
    requires from <= to && d in Midnights(from, to)
    ensures d % DAY_MS == 0 && DayStart(from) <= d <= to
  {
    var i :| 0 <= i < |Midnights(from, to)| && Midnights(from, to)[i] == d;
    RemainderIs(d, DAY_MS, from / DAY_MS + i, 0);
  }

  lemma MidnightIsListed(from: int, to: int, d: int)
    requires from <= to && d % DAY_MS == 0 && DayStart(from) <= d <= to
    ensures d in Midnights(from, to)
  {
    var i := d / DAY_MS - from / DAY_MS;
    assert d - DayStart(from) == i * DAY_MS;
    IndexWithin(d - DayStart(from), to - DayStart(from), i);
    assert Midnights(from, to)[i] == d;
  }

  lemma IndexWithin(a: int, b: int, i: int)
    requires 0 <= a <= b && a == i * DAY_MS
    ensures 0 <= i <= b / DAY_MS
  {}

  /** No booking, however short or malformed its dates, is left without a leg. */
  lemma AlwaysALeg(input: LegInput)
    ensures |LegsFor(input)| >= 1
  {
    if input.Day? {
      var end := EffectiveEndDate(input.endDate, input.startDate);
      assert DayStart(input.startDate) <= input.startDate && DayStart(end) <= end;
    }
  }
}
