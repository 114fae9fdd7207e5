/**
  Ranking vehicles that are not quite what was asked for: duplicates dropped, exact matches left
  out, the rest scored and put in order by four keys, and the best few kept.
 */
module VehicleRanking {
  import opened Foundations
  import opened Sorting

  const MIN_MATCH_LENGTH: nat := 2
  const PRICE_BAND: real := 0.15

  datatype Vehicle = Vehicle(
    id: nat,
    make: string,
    model: string,
    name: string,
    color: Option<string>,
    vehicleType: string,
    serviceTier: string,
    dayRate: real)

  /** What was extracted from the request; an empty text counts as nothing. */
  datatype Wanted = Wanted(
    make: Option<string>,
    model: Option<string>,
    color: Option<string>,
    vehicleType: Option<string>,
    serviceTier: Option<string>)

  /** Trimming and lower-casing, and the order of names, as the platform has them. */
  datatype Locale = Locale(normalize: string -> string, collation: string -> real)

  datatype Reason = SameModelDifferentColor | SameColorSimilarClass | SimilarClass | SimilarPriceRange | ClosestAvailable

  datatype Alternative = Alternative(vehicle: Vehicle, score: int, reason: Reason)

  predicate Asked(text: Option<string>) { text.Some? && text.value != "" }

  predicate Includes(text: string, part: string)
  {
    exists i: nat :: i <= |text| && ReadsAt(text, i, part)
  }

  predicate ReadsAt(text: string, i: nat, part: string)
  {
    i + |part| <= |text| && text[i..i + |part|] == part
  }

  /** `isTextMatch`: equal, or one contains the other and neither is a single letter. */
  predicate TextMatch(actual: Option<string>, expected: string, l: Locale)
  {
    var a := if actual.Some? then l.normalize(actual.value) else "";
    var e := l.normalize(expected);
    a != "" && e != ""
    && (a == e || (|a| >= MIN_MATCH_LENGTH && |e| >= MIN_MATCH_LENGTH && (Includes(a, e) || Includes(e, a))))
  }

  predicate MatchesText(actual: Option<string>, wanted: Option<string>, l: Locale)
  {
    Asked(wanted) && TextMatch(actual, wanted.value, l)
  }

  predicate MatchesKind(actual: string, wanted: Option<string>) { Asked(wanted) && actual == wanted.value }

  /** `isExactMatch`: whatever was asked for matches. */
  predicate IsExact(v: Vehicle, w: Wanted, l: Locale)
  {
    && (Asked(w.make) ==> MatchesText(Some(v.make), w.make, l))
    && (Asked(w.model) ==> MatchesText(Some(v.model), w.model, l))
    && (Asked(w.color) ==> MatchesText(v.color, w.color, l))
    && (Asked(w.vehicleType) ==> MatchesKind(v.vehicleType, w.vehicleType))
    && (Asked(w.serviceTier) ==> MatchesKind(v.serviceTier, w.serviceTier))
  }

  function Exact(w: Wanted, l: Locale): Vehicle -> bool { (v: Vehicle) => IsExact(v, w, l) }

  function NotExact(w: Wanted, l: Locale): Vehicle -> bool { (v: Vehicle) => !IsExact(v, w, l) }

  function Take<T>(s: seq<T>, n: nat): seq<T> { if |s| <= n then s else s[..n] }

  /** `selectExactMatches`. */
  function SelectExactMatches(candidates: seq<Vehicle>, w: Wanted, max: nat, l: Locale): seq<Vehicle>
  {
    Take(Filter(candidates, Exact(w, l)), max)
  }

  // ----- scores

  predicate WithinPriceBand(dayRate: real, reference: Option<real>)
  {
    reference.Some? && reference.value > 0.0 && Abs(dayRate - reference.value) <= reference.value * PRICE_BAND
  }

  function Points(matches: bool, points: int): int { if matches then points else 0 }

  function Score(v: Vehicle, w: Wanted, reference: Option<real>, l: Locale): int
  {
    Points(MatchesText(Some(v.model), w.model, l), 40)
    + Points(MatchesText(Some(v.make), w.make, l), 25)
    + Points(MatchesText(v.color, w.color, l), 20)
    + Points(MatchesKind(v.vehicleType, w.vehicleType), 15)
    + Points(MatchesKind(v.serviceTier, w.serviceTier), 10)
    + Points(WithinPriceBand(v.dayRate, reference), 8)
  }

  function ReasonFor(v: Vehicle, w: Wanted, reference: Option<real>, l: Locale): Reason
  {
    var color := MatchesText(v.color, w.color, l);
    var similar := MatchesKind(v.vehicleType, w.vehicleType) || MatchesKind(v.serviceTier, w.serviceTier);
    if MatchesText(Some(v.model), w.model, l) && Asked(w.color) && !color then SameModelDifferentColor
    else if color && similar then SameColorSimilarClass
    else if similar then SimilarClass
    else if WithinPriceBand(v.dayRate, reference) then SimilarPriceRange
    else ClosestAvailable
  }

  function DayRate(): Vehicle -> real { (v: Vehicle) => v.dayRate }

  /** The mean day rate, rounded half up. */
  function MeanDayRate(vehicles: seq<Vehicle>): real
    requires |vehicles| > 0
  {
    (Sum(vehicles, DayRate()) / |vehicles| as real + 0.5).Floor as real
  }

  function SameModel(w: Wanted, l: Locale): Vehicle -> bool
  {
    (v: Vehicle) => MatchesText(Some(v.make), w.make, l) && MatchesText(Some(v.model), w.model, l)
  }

  function SameClass(w: Wanted): Vehicle -> bool
  {
    (v: Vehicle) => MatchesKind(v.vehicleType, w.vehicleType) || MatchesKind(v.serviceTier, w.serviceTier)
  }

  /** `resolveTargetDayRate`: the mean of the same model, else of the same class, else of all. */
  function TargetDayRate(vehicles: seq<Vehicle>, w: Wanted, l: Locale): Option<real>
  {
    var sameModel := Filter(vehicles, SameModel(w, l));
    var sameClass := Filter(vehicles, SameClass(w));
    if |sameModel| > 0 then Some(MeanDayRate(sameModel))
    else if |sameClass| > 0 then Some(MeanDayRate(sameClass))
    else if |vehicles| == 0 then None
    else Some(MeanDayRate(vehicles))
  }

  // ----- the order

  /** Higher score first, then nearer to the reference price, then cheaper, then by name. */
  predicate RanksBefore(a: Alternative, b: Alternative, reference: Option<real>, l: Locale)
  {
    if a.score != b.score then a.score > b.score
    else if reference.Some? && Abs(a.vehicle.dayRate - reference.value) != Abs(b.vehicle.dayRate - reference.value) then
      Abs(a.vehicle.dayRate - reference.value) < Abs(b.vehicle.dayRate - reference.value)
    else if a.vehicle.dayRate != b.vehicle.dayRate then a.vehicle.dayRate < b.vehicle.dayRate
    else l.collation(a.vehicle.name) <= l.collation(b.vehicle.name)
  }

  function Ranking(reference: Option<real>, l: Locale): (Alternative, Alternative) -> bool
  {
    (a: Alternative, b: Alternative) => RanksBefore(a, b, reference, l)
  }

  /** The four-key comparison is a total preorder. */
  lemma RankingIsTotalPreorder(reference: Option<real>, l: Locale)
    ensures TotalPreorder(Ranking(reference, l))
  {
    forall a, b, c | RanksBefore(a, b, reference, l) && RanksBefore(b, c, reference, l) ensures RanksBefore(a, c, reference, l) {
      if reference.Some? {
        var x, y, z := Abs(a.vehicle.dayRate - reference.value), Abs(b.vehicle.dayRate - reference.value), Abs(c.vehicle.dayRate - reference.value);
        assert a.score == b.score == c.score ==> x <= y <= z;
      }
    }
  }

  /** Whatever `b` matches of what was asked for, `a` matches too. */
  predicate MatchesAtLeast(a: Vehicle, b: Vehicle, w: Wanted, l: Locale)
  {
    && (MatchesText(Some(b.model), w.model, l) ==> MatchesText(Some(a.model), w.model, l))
    && (MatchesText(Some(b.make), w.make, l) ==> MatchesText(Some(a.make), w.make, l))
    && (MatchesText(b.color, w.color, l) ==> MatchesText(a.color, w.color, l))
    && (MatchesKind(b.vehicleType, w.vehicleType) ==> MatchesKind(a.vehicleType, w.vehicleType))
    && (MatchesKind(b.serviceTier, w.serviceTier) ==> MatchesKind(a.serviceTier, w.serviceTier))
  }

  /** Matching more never scores less; at equal price alignment it scores the same only when the matches are the same. */
  lemma MatchingMoreScoresMore(a: Vehicle, b: Vehicle, w: Wanted, reference: Option<real>, l: Locale)
    requires MatchesAtLeast(a, b, w, l) && (WithinPriceBand(a.dayRate, reference) <==> WithinPriceBand(b.dayRate, reference))
    ensures Score(a, w, reference, l) >= Score(b, w, reference, l)
    ensures Score(a, w, reference, l) == Score(b, w, reference, l) <==> MatchesAtLeast(b, a, w, l)
  {}

  /** The reference rate is the whole number nearest to the mean. */
  lemma MeanIsNearest(vehicles: seq<Vehicle>)
    requires |vehicles| > 0
    ensures var mean := Sum(vehicles, DayRate()) / |vehicles| as real;
      mean - 0.5 < MeanDayRate(vehicles) <= mean + 0.5
    ensures MeanDayRate(vehicles).Floor as real == MeanDayRate(vehicles)
  {}

  // ----- what a match is

  predicate Surrounds(text: string, before: string, part: string, after: string) { text == before + part + after }

  lemma IncludesIff(text: string, part: string)
    ensures Includes(text, part) <==> exists before, after :: Surrounds(text, before, part, after)
  {
    if Includes(text, part) {
      var i: nat :| i <= |text| && ReadsAt(text, i, part);
      assert text == text[..i] + part + text[i + |part|..];
      assert Surrounds(text, text[..i], part, text[i + |part|..]);
    }
    if before, after :| Surrounds(text, before, part, after) {
      assert text[|before|..|before| + |part|] == part;
      assert ReadsAt(text, |before|, part);
    }
  }

  /**
    A text matches what was asked for when both normalise to something and to the same, or when both
    have two characters or more and one is the other with something around it.
   */
  lemma TextMatchesIff(actual: Option<string>, wanted: Option<string>, l: Locale)
    ensures MatchesText(actual, wanted, l) <==>
      actual.Some? && wanted.Some? && wanted.value != "" &&
      var a, e := l.normalize(actual.value), l.normalize(wanted.value);
      && |a| > 0 && |e| > 0
      && (a == e || (|a| > 1 && |e| > 1 && exists p, q :: Surrounds(a, p, e, q) || Surrounds(e, p, a, q)))
  {
    if actual.Some? && wanted.Some? {
      IncludesIff(l.normalize(actual.value), l.normalize(wanted.value));
      IncludesIff(l.normalize(wanted.value), l.normalize(actual.value));
    }
  }

  predicate Blank(text: Option<string>) { text.None? || |text.value| == 0 }

  /** The points there are for what was asked for; nothing is asked for by an empty text. */
  function PointsAskedFor(w: Wanted): nat
  {
    (if Blank(w.model) then 0 else 40)
    + (if Blank(w.make) then 0 else 25)
    + (if Blank(w.color) then 0 else 20)
    + (if Blank(w.vehicleType) then 0 else 15)
    + (if Blank(w.serviceTier) then 0 else 10)
  }

  /** A vehicle matches exactly if and only if it scores every point that was asked for. */
  lemma ExactIffAllPoints(v: Vehicle, w: Wanted, l: Locale)
    ensures Score(v, w, None, l) <= PointsAskedFor(w)
    ensures IsExact(v, w, l) <==> Score(v, w, None, l) == PointsAskedFor(w)
  {}

  /** One criterion alone gives its points to the vehicles that match it, and nothing to the others. */
  lemma PointsOfOneCriterion(v: Vehicle, text: string, l: Locale)
    ensures var nothing := Wanted(None, None, None, None, None);
      && Score(v, nothing, None, l) == 0
      && Score(v, nothing.(model := Some(text)), None, l) == (if MatchesText(Some(v.model), Some(text), l) then 40 else 0)
      && Score(v, nothing.(make := Some(text)), None, l) == (if MatchesText(Some(v.make), Some(text), l) then 25 else 0)
      && Score(v, nothing.(color := Some(text)), None, l) == (if MatchesText(v.color, Some(text), l) then 20 else 0)
      && Score(v, nothing.(vehicleType := Some(text)), None, l) == (if text == v.vehicleType && text != "" then 15 else 0)
      && Score(v, nothing.(serviceTier := Some(text)), None, l) == (if text == v.serviceTier && text != "" then 10 else 0)
  {}

  /** Eight points go to a price from 85 to 115 per cent of a positive reference. */
  lemma PriceAlignmentScores(v: Vehicle, w: Wanted, reference: real, l: Locale)
    ensures Score(v, w, Some(reference), l) - Score(v, w, None, l)
      == (if reference > 0.0 && 85.0 * reference <= 100.0 * v.dayRate <= 115.0 * reference then 8 else 0)
  {}

  /** Which reason is given: a missed colour of the right model first, then colour and class, class, price. */
  lemma ReasonIs(v: Vehicle, w: Wanted, reference: Option<real>, l: Locale)
    ensures var reason := ReasonFor(v, w, reference, l);
      var recoloured := MatchesText(Some(v.model), w.model, l) && !Blank(w.color) && !MatchesText(v.color, w.color, l);
      var similar := (w.vehicleType == Some(v.vehicleType) && v.vehicleType != "") || (w.serviceTier == Some(v.serviceTier) && v.serviceTier != "");
      var priced := Score(v, w, reference, l) > Score(v, w, None, l);
      && (reason.SameModelDifferentColor? <==> recoloured)
      && (reason.SameColorSimilarClass? <==> MatchesText(v.color, w.color, l) && similar)
      && (reason.SimilarClass? <==> !recoloured && similar && !MatchesText(v.color, w.color, l))
      && (reason.SimilarPriceRange? <==> !recoloured && !similar && priced)
      && (reason.ClosestAvailable? <==> !recoloured && !similar && !priced)
  {}

  /** There is a reference rate exactly when there are vehicles; it is within one half of the mean of the closest group that has any. */
  lemma TargetIsMeanOfClosestGroup(vehicles: seq<Vehicle>, w: Wanted, l: Locale)
    ensures TargetDayRate(vehicles, w, l).None? <==> vehicles == []
    ensures vehicles != [] ==>
      var sameModel := Filter(vehicles, (v: Vehicle) => MatchesText(Some(v.make), w.make, l) && MatchesText(Some(v.model), w.model, l));
      var sameClass := Filter(vehicles, (v: Vehicle) =>
        (v.vehicleType != "" && w.vehicleType == Some(v.vehicleType)) || (v.serviceTier != "" && w.serviceTier == Some(v.serviceTier)));
      var group := if sameModel != [] then sameModel else if sameClass != [] then sameClass else vehicles;
      Abs(TargetDayRate(vehicles, w, l).value - Sum(group, DayRate()) / |group| as real) <= 0.5
  {
    var sameModel := (v: Vehicle) => MatchesText(Some(v.make), w.make, l) && MatchesText(Some(v.model), w.model, l);
    var sameClass := (v: Vehicle) =>
      (v.vehicleType != "" && w.vehicleType == Some(v.vehicleType)) || (v.serviceTier != "" && w.serviceTier == Some(v.serviceTier));
    FilterAgrees(vehicles, sameModel, SameModel(w, l));
    FilterAgrees(vehicles, sameClass, SameClass(w));
  }

  lemma {:induction false} FilterAgrees<T(!new)>(s: seq<T>, f: T -> bool, g: T -> bool)
    requires forall x :: f(x) == g(x)
    ensures Filter(s, f) == Filter(s, g)
  {
    if s != [] { FilterAgrees(s[1..], f, g); }
  }

  /** Each key decides among those that the keys before it leave equal; only the name can leave two vehicles equal. */
  lemma KeysDecideInOrder(a: Alternative, b: Alternative, reference: Option<real>, l: Locale)
    ensures a.score > b.score ==> RanksBefore(a, b, reference, l) && !RanksBefore(b, a, reference, l)
    ensures a.score == b.score ==>
      var x, y := if reference.Some? then Abs(a.vehicle.dayRate - reference.value) else 0.0,
                  if reference.Some? then Abs(b.vehicle.dayRate - reference.value) else 0.0;
      && (x < y ==> RanksBefore(a, b, reference, l) && !RanksBefore(b, a, reference, l))
      && (x == y && a.vehicle.dayRate < b.vehicle.dayRate ==> RanksBefore(a, b, reference, l) && !RanksBefore(b, a, reference, l))
      && (x == y && a.vehicle.dayRate == b.vehicle.dayRate ==>
            (RanksBefore(a, b, reference, l) <==> l.collation(a.vehicle.name) <= l.collation(b.vehicle.name)))
  {}

  // ----- duplicates

  function Ids(vehicles: seq<Vehicle>): set<nat> { set i | 0 <= i < |vehicles| :: vehicles[i].id }

  function Dedupe(vehicles: seq<Vehicle>): seq<Vehicle>
  {
    if vehicles == [] then []
    else
      var front := vehicles[..|vehicles| - 1];
      var last := vehicles[|vehicles| - 1];
      if last.id in Ids(front) then Dedupe(front) else Dedupe(front) + [last]
  }

  /** `dedupeById`: a set of the ids seen so far decides which vehicles stay. */
  method DedupeById(options: seq<Vehicle>) returns (kept: seq<Vehicle>)
    ensures kept == Dedupe(options)
  {
    var seen: set<nat> := {};
    kept := [];
    for i := 0 to |options|
      invariant seen == Ids(options[..i])
      invariant kept == Dedupe(options[..i])
    {
      assert options[..i + 1][..i] == options[..i];
      IdsOfOneMore(options[..i], options[i]);
      assert options[..i + 1] == options[..i] + [options[i]];
      if options[i].id !in seen {
        seen := seen + {options[i].id};
        kept := kept + [options[i]];
      }
    }
    assert options[..|options|] == options;
  }

  lemma IdsOfOneMore(vehicles: seq<Vehicle>, v: Vehicle)
    ensures Ids(vehicles + [v]) == Ids(vehicles) + {v.id}
  {
    assert (vehicles + [v])[|vehicles|] == v;
    assert forall i :: 0 <= i < |vehicles| ==> (vehicles + [v])[i] == vehicles[i];
  }

  ghost predicate DistinctIds(vehicles: seq<Vehicle>)
  {
    forall i, j :: 0 <= i < j < |vehicles| ==> vehicles[i].id != vehicles[j].id
  }

  predicate FirstOccurrence(vehicles: seq<Vehicle>, i: int)
  {
    0 <= i < |vehicles| && vehicles[i].id !in Ids(vehicles[..i])
  }

  ghost predicate IsFirst(vehicles: seq<Vehicle>, v: Vehicle)
  {
    exists i :: FirstOccurrence(vehicles, i) && vehicles[i] == v
  }

  lemma FirstOfOneMore(vehicles: seq<Vehicle>, last: Vehicle, v: Vehicle)
    ensures IsFirst(vehicles + [last], v) <==> IsFirst(vehicles, v) || (v == last && last.id !in Ids(vehicles))
  {
    var all := vehicles + [last];
    assert all[..|vehicles|] == vehicles;
    if IsFirst(vehicles, v) {
      var i :| FirstOccurrence(vehicles, i) && vehicles[i] == v;
      assert all[..i] == vehicles[..i];
      assert FirstOccurrence(all, i);
    }
    if v == last && last.id !in Ids(vehicles) { assert FirstOccurrence(all, |vehicles|); }
    if IsFirst(all, v) {
      var i :| FirstOccurrence(all, i) && all[i] == v;
      if i < |vehicles| {
        assert all[..i] == vehicles[..i];
        assert FirstOccurrence(vehicles, i);
      }
    }
  }

  /** What is kept is exactly the first occurrence of each id. */
  lemma {:induction false} DedupeKeepsFirst(vehicles: seq<Vehicle>, v: Vehicle)
    ensures v in Dedupe(vehicles) <==> IsFirst(vehicles, v)
  {
    if vehicles != [] {
      var front := vehicles[..|vehicles| - 1];
      var last := vehicles[|vehicles| - 1];
      assert vehicles == front + [last];
      DedupeKeepsFirst(front, v);
      FirstOfOneMore(front, last, v);
    }
  }

  /** No id is kept twice and none is lost. */
  lemma {:induction false} DedupeKeepsIds(vehicles: seq<Vehicle>)
    ensures DistinctIds(Dedupe(vehicles)) && Ids(Dedupe(vehicles)) == Ids(vehicles)
  {
    if vehicles != [] {
      var front := vehicles[..|vehicles| - 1];
      var last := vehicles[|vehicles| - 1];
      assert vehicles == front + [last];
      DedupeKeepsIds(front);
      IdsOfOneMore(front, last);
      if last.id !in Ids(front) { IdsOfOneMore(Dedupe(front), last); }
    }
  }

  // ----- the result

  function Scored(vehicles: seq<Vehicle>, w: Wanted, reference: Option<real>, l: Locale): seq<Alternative>
  {
    seq(|vehicles|, i requires 0 <= i < |vehicles| =>
      Alternative(vehicles[i], Score(vehicles[i], w, reference, l), ReasonFor(vehicles[i], w, reference, l)))
  }

  function Candidates(options: seq<Vehicle>, w: Wanted, l: Locale): seq<Alternative>
  {
    var deduped := Dedupe(options);
    Scored(Filter(deduped, NotExact(w, l)), w, TargetDayRate(deduped, w, l), l)
  }

  function Alternatives(options: seq<Vehicle>, w: Wanted, max: nat, l: Locale): seq<Alternative>
  {
    Take(StableSort(Candidates(options, w, l), Ranking(TargetDayRate(Dedupe(options), w, l), l)), max)
  }

  /** `rankAlternatives`. */
  method RankAlternatives(options: seq<Vehicle>, w: Wanted, max: nat, l: Locale) returns (ranked: seq<Alternative>)
    ensures ranked == Alternatives(options, w, max, l)
  {
    var deduped := DedupeById(options);
    var reference := TargetDayRate(deduped, w, l);
    var others := Filter(deduped, NotExact(w, l));
    ranked := Take(StableSort(Scored(others, w, reference, l), Ranking(reference, l)), max);
  }

  lemma {:induction false} FilterKeeps<T>(s: seq<T>, keep: T -> bool, x: T)
    ensures x in Filter(s, keep) <==> x in s && keep(x)
  {
    if s != [] {
      FilterKeeps(s[1..], keep, x);
      assert s == [s[0]] + s[1..];
    }
  }

  lemma {:induction false} FilterKeepsDistinct(s: seq<Vehicle>, keep: Vehicle -> bool)
    requires DistinctIds(s)
    ensures DistinctIds(Filter(s, keep))
  {
    if s != [] {
      FilterKeepsDistinct(s[1..], keep);
      forall i | 0 <= i < |Filter(s[1..], keep)| ensures Filter(s[1..], keep)[i] in s[1..] {
        FilterKeeps(s[1..], keep, Filter(s[1..], keep)[i]);
      }
    }
  }

  ghost predicate DistinctVehicles(list: seq<Alternative>)
  {
    forall i, j :: 0 <= i < j < |list| ==> list[i].vehicle.id != list[j].vehicle.id
  }

  /** A candidate is the first occurrence of an id that does not match exactly, with its score and reason. */
  lemma CandidatesAre(options: seq<Vehicle>, w: Wanted, l: Locale, a: Alternative)
    ensures a in Candidates(options, w, l) <==>
      && a.vehicle in Dedupe(options) && !IsExact(a.vehicle, w, l)
      && a.score == Score(a.vehicle, w, TargetDayRate(Dedupe(options), w, l), l)
      && a.reason == ReasonFor(a.vehicle, w, TargetDayRate(Dedupe(options), w, l), l)
  {
    var deduped := Dedupe(options);
    var others := Filter(deduped, NotExact(w, l));
    FilterKeeps(deduped, NotExact(w, l), a.vehicle);
    if a.vehicle in others {
      var i :| 0 <= i < |others| && others[i] == a.vehicle;
      assert Candidates(options, w, l)[i].vehicle == a.vehicle;
    }
  }

  lemma CandidatesAreDistinct(options: seq<Vehicle>, w: Wanted, l: Locale)
    ensures DistinctVehicles(Candidates(options, w, l))
  {
    DedupeKeepsIds(options);
    FilterKeepsDistinct(Dedupe(options), NotExact(w, l));
  }

  lemma SameMembers<T>(s: seq<T>, leq: (T, T) -> bool)
    ensures multiset(StableSort(s, leq)) == multiset(s) && |StableSort(s, leq)| == |s|
    ensures forall x :: x in StableSort(s, leq) <==> x in s
  {
    SortIsPermutation(s, leq);
    forall x ensures x in StableSort(s, leq) <==> x in s { SameElements(s, leq, x); }
  }

  /** The first elements of an ordered sequence come before all the others. */
  lemma PrefixRanksFirst(sorted: seq<Alternative>, max: nat, leq: (Alternative, Alternative) -> bool)
    requires SortedBy(sorted, leq)
    ensures SortedBy(Take(sorted, max), leq)
    ensures forall a, b :: a in Take(sorted, max) && b in sorted && b !in Take(sorted, max) ==> leq(a, b)
  {
    var kept := Take(sorted, max);
    forall a, b | a in kept && b in sorted && b !in kept ensures leq(a, b) {
      var i :| 0 <= i < |kept| && kept[i] == a;
      var j :| 0 <= j < |sorted| && sorted[j] == b;
      assert forall x :: 0 <= x < |kept| ==> kept[x] == sorted[x];
      assert sorted[i] == a;
    }
  }

  /**
    The result is a true top-k: in order, no id twice, no exact match, as many as there are room and
    candidates for, and no candidate left out ranks better than one that was kept.
   */
  lemma AlternativesAreTopK(options: seq<Vehicle>, w: Wanted, max: nat, l: Locale)
    ensures var kept := Alternatives(options, w, max, l);
      var all := Candidates(options, w, l);
      var reference := TargetDayRate(Dedupe(options), w, l);
      && (forall i, j :: 0 <= i < j < |kept| ==> RanksBefore(kept[i], kept[j], reference, l)) && DistinctVehicles(kept)
      && |kept| == (if |all| < max then |all| else max)
      && (forall a :: a in kept ==> a in all)
      && (forall a, b :: a in kept && b in all && b !in kept ==> RanksBefore(a, b, reference, l))
  {
    var all := Candidates(options, w, l);
    var reference := TargetDayRate(Dedupe(options), w, l);
    RankingIsTotalPreorder(reference, l);
    SortSorts(all, Ranking(reference, l));
    SameMembers(all, Ranking(reference, l));
    CandidatesAreDistinct(options, w, l);
    SortKeepsDistinct(all, Ranking(reference, l), (a: Alternative) => a.vehicle.id);
    PrefixRanksFirst(StableSort(all, Ranking(reference, l)), max, Ranking(reference, l));
  }

  /** Every exact match is selected unless there is no room left, and nothing else is. */
  lemma ExactMatchesAreSelected(candidates: seq<Vehicle>, w: Wanted, max: nat, l: Locale)
    ensures var selected := SelectExactMatches(candidates, w, max, l);
      && |selected| <= max
      && (forall v :: v in selected ==> v in candidates && IsExact(v, w, l))
      && (|selected| < max ==> forall v :: v in candidates && IsExact(v, w, l) ==> v in selected)
  {
    forall v ensures v in Filter(candidates, Exact(w, l)) <==> v in candidates && IsExact(v, w, l) {
      FilterKeeps(candidates, Exact(w, l), v);
    }
  }

  /** Nothing is offered both as an exact match and as an alternative. */
  lemma ExactAndAlternativeAreDisjoint(options: seq<Vehicle>, w: Wanted, exact: nat, max: nat, l: Locale, a: Alternative)
    requires a in Alternatives(options, w, max, l)
    ensures IsFirst(options, a.vehicle) && !IsExact(a.vehicle, w, l)
    ensures a.vehicle !in SelectExactMatches(options, w, exact, l)
  {
    AlternativesAreTopK(options, w, max, l);
    CandidatesAre(options, w, l, a);
    FilterKeeps(options, Exact(w, l), a.vehicle);
    DedupeKeepsFirst(options, a.vehicle);
  }
}
