/**
  The chauffeur side of document review. It looks like the car side but takes no lock before it
  counts what is unresolved, so any number of reviews of one chauffeur may count, and then save, in
  any order. The promise that holds for cars holds here exactly as long as every approval is saved
  while its count would still come out the same.
 */
module ChauffeurApproval {
  import opened Foundations
  import opened CarApproval

  datatype ChauffeurStatus = ChauffeurPending | ChauffeurApproved | ChauffeurRejected

  /** One review: `decision` is what it will write to the chauffeur, if anything. */
  datatype Review = Review(document: nat, status: ReviewStatus, decision: Option<Option<ChauffeurStatus>>)

  datatype Desk = Desk(chauffeur: ChauffeurStatus, documents: map<nat, ReviewStatus>, reviews: map<nat, Review>)

  /** A review writes its document and holds that row, counts, and commits with what it decided; or fails as a whole. */
  datatype Move =
    | Start(t: nat, document: nat, approve: bool)
    | Decide(t: nat)
    | Save(t: nat)
    | Fail(t: nat)

  function Reviewed(documents: map<nat, ReviewStatus>, r: Review): map<nat, ReviewStatus> { documents[r.document := r.status] }

  predicate AllApproved(documents: map<nat, ReviewStatus>)
  {
    forall d :: d in documents ==> documents[d].Approved?
  }

  predicate MayMove(s: Desk, m: Move)
  {
    match m
    case Start(t, document, approve) =>
      t !in s.reviews && document in s.documents && forall u :: u in s.reviews ==> s.reviews[u].document != document
    case Decide(t) => t in s.reviews && s.reviews[t].decision.None?
    case Save(t) => t in s.reviews && s.reviews[t].decision.Some?
    case Fail(t) => t in s.reviews
  }

  /** The count sees committed documents and the review's own. */
  function Decision(documents: map<nat, ReviewStatus>, r: Review): Option<ChauffeurStatus>
  {
    if r.status.Rejected? then Some(ChauffeurRejected)
    else if AllApproved(Reviewed(documents, r)) then Some(ChauffeurApproved)
    else None
  }

  function Made(s: Desk, m: Move): Desk
    requires MayMove(s, m)
  {
    match m
    case Start(t, document, approve) =>
      s.(reviews := s.reviews[t := Review(document, if approve then Approved else Rejected, None)])
    case Decide(t) =>
      s.(reviews := s.reviews[t := s.reviews[t].(decision := Some(Decision(s.documents, s.reviews[t])))])
    case Save(t) =>
      var r := s.reviews[t];
      Desk(if r.decision.value.Some? then r.decision.value.value else s.chauffeur, Reviewed(s.documents, r), s.reviews - {t})
    case Fail(t) => s.(reviews := s.reviews - {t})
  }

  // ----- runs

  /** A chauffeur is approved only with every document approved, and is once every document is. */
  predicate ExactFor(s: Desk) { s.chauffeur.ChauffeurApproved? <==> AllApproved(s.documents) }

  /** A rejection, an approval whose count would still come out as it did, or nothing left to approve. */
  predicate StillRight(s: Desk, t: nat)
    requires MayMove(s, Save(t))
  {
    || s.reviews[t].status.Rejected?
    || s.reviews[t].decision.value == Decision(s.documents, s.reviews[t])
    || s.chauffeur.ChauffeurApproved?
  }

  /** What reviews keep to: one at a time, saving only what is still right, or nothing. */
  datatype Care = OneByOne | Rechecked | Careless

  ghost predicate Careful(s: Desk, m: Move, care: Care)
    requires MayMove(s, m)
  {
    match care
    case OneByOne => m.Start? ==> s.reviews == map[]
    case Rechecked => m.Save? ==> StillRight(s, m.t)
    case Careless => true
  }

  ghost predicate ValidRun(s: Desk, run: seq<Move>, care: Care)
    decreases |run|
  {
    run != [] ==> MayMove(s, run[0]) && Careful(s, run[0], care) && ValidRun(Made(s, run[0]), run[1..], care)
  }

  ghost function After(s: Desk, run: seq<Move>): Desk
    decreases |run|
  {
    if run == [] || !MayMove(s, run[0]) then s else After(Made(s, run[0]), run[1..])
  }

  ghost predicate Initial(s: Desk) { s.reviews == map[] && ExactFor(s) }

  ghost predicate Reachable(s: Desk, care: Care)
  {
    exists init, run :: Initial(init) && ValidRun(init, run, care) && After(init, run) == s
  }

  // ----- what every review is

  predicate ReviewOk(r: Review)
  {
    && !r.status.PendingReview?
    && (r.decision.Some? && r.status.Rejected? ==> r.decision.value == Some(ChauffeurRejected))
    && (r.decision.Some? && r.status.Approved? ==> r.decision.value.None? || r.decision.value == Some(ChauffeurApproved))
  }

  ghost predicate ReviewsOk(s: Desk)
  {
    forall t :: t in s.reviews ==> ReviewOk(s.reviews[t]) && s.reviews[t].document in s.documents
  }

  /** Alone, a review's count is as good as new when it is saved. */
  ghost predicate OneReview(s: Desk)
  {
    && (forall t, u :: t in s.reviews && u in s.reviews ==> t == u)
    && (forall t :: t in s.reviews && s.reviews[t].decision.Some? ==> s.reviews[t].decision.value == Decision(s.documents, s.reviews[t]))
  }

  /**
    The exact condition: a save leaves an exact desk exact if and only if it saves a rejection, or an
    approval whose count is still right, or the chauffeur is approved already.
   */
  lemma SaveIsExactIff(s: Desk, t: nat)
    requires ReviewsOk(s) && ExactFor(s) && MayMove(s, Save(t))
    ensures ExactFor(Made(s, Save(t))) <==> StillRight(s, t)
  {
    var r := s.reviews[t];
    var documents := Reviewed(s.documents, r);
    assert documents[r.document] == r.status;
    if s.chauffeur.ChauffeurApproved? && r.status.Approved? {
      assert AllApproved(documents);
    }
  }

  lemma MoveKeepsExact(s: Desk, m: Move, care: Care)
    requires ReviewsOk(s) && ExactFor(s) && (care.OneByOne? ==> OneReview(s))
    requires MayMove(s, m) && Careful(s, m, care) && !care.Careless?
    ensures ReviewsOk(Made(s, m)) && ExactFor(Made(s, m)) && (care.OneByOne? ==> OneReview(Made(s, m)))
    ensures Careful(s, m, Rechecked)
  {
    if m.Save? { SaveIsExactIff(s, m.t); }
  }

  lemma {:induction false} RunKeepsExact(s: Desk, run: seq<Move>, care: Care)
    requires ReviewsOk(s) && ExactFor(s) && (care.OneByOne? ==> OneReview(s))
    requires ValidRun(s, run, care) && !care.Careless?
    ensures ExactFor(After(s, run)) && ValidRun(s, run, Rechecked)
    decreases |run|
  {
    if run != [] {
      MoveKeepsExact(s, run[0], care);
      RunKeepsExact(Made(s, run[0]), run[1..], care);
    }
  }

  /** In every run whose saves are still right, and so in every run of one review at a time, the chauffeur is exact. */
  lemma CarefulReviewIsExact(s: Desk, care: Care)
    requires Reachable(s, care) && !care.Careless?
    ensures ExactFor(s)
    ensures Reachable(s, Rechecked)
  {
    var init, run :| Initial(init) && ValidRun(init, run, care) && After(init, run) == s;
    RunKeepsExact(init, run, care);
  }

  ghost predicate AlwaysExact(s: Desk, run: seq<Move>)
    decreases |run|
  {
    ExactFor(s) && (run != [] && MayMove(s, run[0]) ==> AlwaysExact(Made(s, run[0]), run[1..]))
  }

  /** Over whole runs: the chauffeur is exact all along if and only if every save in it is still right. */
  lemma {:induction false} ExactAllAlongIff(s: Desk, run: seq<Move>)
    requires ReviewsOk(s) && ExactFor(s) && ValidRun(s, run, Careless)
    ensures AlwaysExact(s, run) <==> ValidRun(s, run, Rechecked)
    decreases |run|
  {
    if run != [] {
      if run[0].Save? { SaveIsExactIff(s, run[0].t); }
      var t := Made(s, run[0]);
      if ExactFor(t) { ExactAllAlongIff(t, run[1..]); }
    }
  }

  // ----- runs that break the promise

  lemma Follow(s: Desk, m: Move, t: Desk)
    requires Reachable(s, Careless) && MayMove(s, m) && Made(s, m) == t
    ensures Reachable(t, Careless)
  {
    var init, run :| Initial(init) && ValidRun(init, run, Careless) && After(init, run) == s;
    AppendMove(init, run, m);
  }

  lemma {:induction false} AppendMove(s: Desk, run: seq<Move>, m: Move)
    requires ValidRun(s, run, Careless) && MayMove(After(s, run), m)
    ensures ValidRun(s, run + [m], Careless) && After(s, run + [m]) == Made(After(s, run), m)
    decreases |run|
  {
    if run == [] {
      assert run + [m] == [m];
      assert After(Made(s, m), []) == Made(s, m);
    } else {
      assert (run + [m])[1..] == run[1..] + [m];
      AppendMove(Made(s, run[0]), run[1..], m);
    }
  }

  lemma StartFrom(s: Desk)
    requires Initial(s)
    ensures Reachable(s, Careless)
  {
    assert ValidRun(s, [], Careless) && After(s, []) == s;
  }

  lemma BothApprovalsBegun(a: nat, b: nat) returns (s: Desk)
    requires a != b
    ensures Reachable(s, Careless)
    ensures s == Desk(ChauffeurPending, map[a := PendingReview, b := PendingReview],
                      map[0 := Review(a, Approved, None), 1 := Review(b, Approved, None)])
  {
    var s0 := Desk(ChauffeurPending, map[a := PendingReview, b := PendingReview], map[]);
    assert s0.documents[a] == PendingReview;
    StartFrom(s0);
    var s1 := s0.(reviews := map[0 := Review(a, Approved, None)]);
    Follow(s0, Start(0, a, true), s1);
    s := s0.(reviews := map[0 := Review(a, Approved, None), 1 := Review(b, Approved, None)]);
    Follow(s1, Start(1, b, true), s);
  }

  /** Two approvals under way at once, of the last two documents; neither sees the other. */
  lemma BothApprovalsDecided(a: nat, b: nat) returns (s: Desk)
    requires a != b
    ensures Reachable(s, Careless)
    ensures s == Desk(ChauffeurPending, map[a := PendingReview, b := PendingReview],
                      map[0 := Review(a, Approved, Some(None)), 1 := Review(b, Approved, Some(None))])
  {
    var s2 := BothApprovalsBegun(a, b);
    assert Reviewed(s2.documents, s2.reviews[0])[b] == PendingReview;
    var s3 := s2.(reviews := map[0 := Review(a, Approved, Some(None)), 1 := Review(b, Approved, None)]);
    Follow(s2, Decide(0), s3);
    assert Reviewed(s2.documents, s3.reviews[1])[a] == PendingReview;
    s := s2.(reviews := map[0 := Review(a, Approved, Some(None)), 1 := Review(b, Approved, Some(None))]);
    Follow(s3, Decide(1), s);
  }

  /** The last two approvals overlap, and the chauffeur is never approved although every document is. */
  lemma OverlappingApprovalsStrand(a: nat, b: nat) returns (s: Desk)
    requires a != b
    ensures Reachable(s, Careless) && s.reviews == map[] && a in s.documents && b in s.documents
    ensures AllApproved(s.documents) && !s.chauffeur.ChauffeurApproved?
  {
    var decided := BothApprovalsDecided(a, b);
    var saved := Made(decided, Save(0));
    Follow(decided, Save(0), saved);
    s := Made(saved, Save(1));
    Follow(saved, Save(1), s);
  }

  /** An approval of the last document has counted. */
  lemma ApprovalCounted(a: nat, b: nat) returns (s: Desk)
    requires a != b
    ensures Reachable(s, Careless)
    ensures s == Desk(ChauffeurPending, map[a := PendingReview, b := Approved], map[0 := Review(a, Approved, Some(Some(ChauffeurApproved)))])
  {
    var s0 := Desk(ChauffeurPending, map[a := PendingReview, b := Approved], map[]);
    assert s0.documents[a] == PendingReview;
    StartFrom(s0);
    var s1 := s0.(reviews := map[0 := Review(a, Approved, None)]);
    Follow(s0, Start(0, a, true), s1);
    assert AllApproved(Reviewed(s0.documents, s1.reviews[0]));
    s := s0.(reviews := map[0 := Review(a, Approved, Some(Some(ChauffeurApproved)))]);
    Follow(s1, Decide(0), s);
  }

  /** Then a rejection is saved. */
  lemma RejectionSavedFirst(a: nat, b: nat) returns (s: Desk)
    requires a != b
    ensures Reachable(s, Careless)
    ensures s == Desk(ChauffeurRejected, map[a := PendingReview, b := Rejected], map[0 := Review(a, Approved, Some(Some(ChauffeurApproved)))])
  {
    var s2 := ApprovalCounted(a, b);
    var counted := s2.reviews[0];
    var s3 := s2.(reviews := map[0 := counted, 1 := Review(b, Rejected, None)]);
    Follow(s2, Start(1, b, false), s3);
    var s4 := s2.(reviews := map[0 := counted, 1 := Review(b, Rejected, Some(Some(ChauffeurRejected)))]);
    Follow(s3, Decide(1), s4);
    s := Desk(ChauffeurRejected, map[a := PendingReview, b := Rejected], map[0 := counted]);
    assert s4.reviews - {1} == s.reviews && s2.documents[b := Rejected] == s.documents;
    Follow(s4, Save(1), s);
  }

  /** The late approval overwrites the rejection: approved, with a rejected document. */
  lemma LateApprovalOverwritesRejection(a: nat, b: nat) returns (s: Desk)
    requires a != b
    ensures Reachable(s, Careless) && s.reviews == map[]
    ensures s.chauffeur.ChauffeurApproved? && b in s.documents && s.documents[b].Rejected?
  {
    var rejected := RejectionSavedFirst(a, b);
    s := Made(rejected, Save(0));
    Follow(rejected, Save(0), s);
  }
}
