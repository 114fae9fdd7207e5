/**
  Approval of cars. Images and documents are reviewed one at a time, by transactions that first
  write the asset, then lock the car, then evaluate or demote it, and only then commit; until the
  commit nobody else sees the asset's new status. Any number of reviewers, owners and administrators
  work at once.
 */
module CarApproval {
  import opened Foundations

  datatype ReviewStatus = PendingReview | Approved | Rejected

  datatype Kind = Image | MotCertificate | InsuranceCertificate | OtherDocument

  datatype Asset = Asset(car: nat, kind: Kind, status: ReviewStatus)

  datatype CarStatus = CarPending | CarApproved

  /** The status a reviewer or owner writes to one asset. */
  datatype Write = Write(asset: nat, status: ReviewStatus)

  datatype Tx =
    | Reviewing(car: nat, write: Write, carLocked: bool, outcome: Option<CarStatus>)
    | Approving(car: nat, carLocked: bool, finished: bool)
    | Uploading(car: nat, assets: map<nat, Asset>)

  /** `shells` are the cars whose files have not been stored yet. */
  datatype State = State(cars: map<nat, CarStatus>, assets: map<nat, Asset>, shells: set<nat>, txs: map<nat, Tx>)

  datatype Step =
    | CreateShell(car: nat)
    | BeginUpload(t: nat, car: nat, assets: map<nat, Asset>)
    | FailUpload(car: nat)
    | BeginReview(t: nat, write: Write)
    | BeginApproveCar(t: nat, car: nat)
    | LockCar(t: nat)
    | Finish(t: nat)
    | Commit(t: nat)
    | Abort(t: nat)

  // ----- full review

  predicate HasApproved(assets: map<nat, Asset>, car: nat, kind: Kind)
  {
    exists a :: a in assets && assets[a].car == car && assets[a].kind == kind && assets[a].status.Approved?
  }

  predicate Unresolved(assets: map<nat, Asset>, car: nat)
  {
    exists a :: a in assets && assets[a].car == car && !assets[a].status.Approved?
  }

  /** `fullyReviewed`: nothing pending or rejected, an approved image, both required documents approved. */
  predicate FullyReviewed(assets: map<nat, Asset>, car: nat)
  {
    && !Unresolved(assets, car)
    && HasApproved(assets, car, Image)
    && HasApproved(assets, car, MotCertificate)
    && HasApproved(assets, car, InsuranceCertificate)
  }

  /** Reviewed in full: every image and document of the car is approved, and at least one of each required kind is there. */
  lemma FullyReviewedIff(assets: map<nat, Asset>, car: nat)
    ensures FullyReviewed(assets, car) <==>
      && (forall a :: a in assets && assets[a].car == car ==> assets[a].status == Approved)
      && (exists a :: a in assets && assets[a].car == car && assets[a].kind == Image)
      && (exists a :: a in assets && assets[a].car == car && assets[a].kind == MotCertificate)
      && (exists a :: a in assets && assets[a].car == car && assets[a].kind == InsuranceCertificate)
  {}

  function WithWrite(assets: map<nat, Asset>, w: Write): map<nat, Asset>
  {
    if w.asset in assets then assets[w.asset := assets[w.asset].(status := w.status)] else assets
  }

  /** An asset is approved or rejected whatever its status; only a rejected one is replaced. */
  predicate MayWrite(asset: Asset, status: ReviewStatus)
  {
    status.PendingReview? ==> asset.status.Rejected?
  }

  /** What the reviewer's transaction makes of the car once it has the car's lock. */
  function OutcomeFor(s: State, tx: Tx): CarStatus
    requires tx.Reviewing? && tx.car in s.cars
  {
    if !tx.write.status.Approved? then CarPending
    else if FullyReviewed(WithWrite(s.assets, tx.write), tx.car) then CarApproved
    else s.cars[tx.car]
  }

  predicate LocksCar(tx: Tx, car: nat) { (tx.Reviewing? || tx.Approving?) && tx.car == car && tx.carLocked }

  predicate CarFree(s: State, t: nat, car: nat)
  {
    forall u :: u in s.txs && u != t ==> !LocksCar(s.txs[u], car)
  }

  predicate AssetFree(s: State, asset: nat)
  {
    forall u :: u in s.txs && s.txs[u].Reviewing? ==> s.txs[u].write.asset != asset
  }

  predicate NewAssets(s: State, car: nat, assets: map<nat, Asset>)
  {
    && (forall a :: a in assets ==> a !in s.assets && assets[a].car == car && assets[a].status.PendingReview?)
    && (forall u :: u in s.txs && s.txs[u].Uploading? ==> s.txs[u].assets.Keys !! assets.Keys && s.txs[u].car != car)
  }

  predicate Enabled(s: State, step: Step)
  {
    match step
    case CreateShell(car) => car !in s.cars
    case BeginUpload(t, car, assets) => t !in s.txs && car in s.cars && car in s.shells && NewAssets(s, car, assets)
    case FailUpload(car) =>
      && car in s.cars && car in s.shells
      && forall u :: u in s.txs ==> !LocksCar(s.txs[u], car) && !(s.txs[u].Uploading? && s.txs[u].car == car)
    case BeginReview(t, w) =>
      && t !in s.txs && w.asset in s.assets && AssetFree(s, w.asset) && MayWrite(s.assets[w.asset], w.status)
    case BeginApproveCar(t, car) => t !in s.txs && car in s.cars
    case LockCar(t) => t in s.txs && !s.txs[t].Uploading? && CarFree(s, t, s.txs[t].car)
    case Finish(t) => t in s.txs && !s.txs[t].Uploading? && s.txs[t].carLocked && s.txs[t].car in s.cars
    case Commit(t) =>
      && t in s.txs
      && (s.txs[t].Reviewing? ==> s.txs[t].outcome.Some?)
      && (s.txs[t].Approving? ==> s.txs[t].finished)
    case Abort(t) => t in s.txs
  }

  function SetTx(s: State, t: nat, tx: Tx): State { s.(txs := s.txs[t := tx]) }

  function DropTx(s: State, t: nat): State { s.(txs := s.txs - {t}) }

  function Do(s: State, step: Step): State
    requires Enabled(s, step)
  {
    match step
    case CreateShell(car) => s.(cars := s.cars[car := CarPending], shells := s.shells + {car})
    case BeginUpload(t, car, assets) => SetTx(s, t, Uploading(car, assets))
    case FailUpload(car) => s.(cars := s.cars - {car}, shells := s.shells - {car})
    case BeginReview(t, w) => SetTx(s, t, Reviewing(s.assets[w.asset].car, w, false, None))
    case BeginApproveCar(t, car) => SetTx(s, t, Approving(car, false, false))
    case LockCar(t) => SetTx(s, t, s.txs[t].(carLocked := true))
    case Finish(t) => DoFinish(s, t)
    case Commit(t) => DoCommit(s, t)
    case Abort(t) => DropTx(s, t)
  }

  /** Evaluation or demotion under the car's lock; a car that is not fully reviewed is not approved. */
  function DoFinish(s: State, t: nat): State
    requires t in s.txs && !s.txs[t].Uploading? && s.txs[t].car in s.cars
  {
    var tx := s.txs[t];
    if tx.Reviewing? then SetTx(s, t, tx.(outcome := Some(OutcomeFor(s, tx))))
    else if FullyReviewed(s.assets, tx.car) then SetTx(s, t, tx.(finished := true))
    else DropTx(s, t)
  }

  function DoCommit(s: State, t: nat): State
    requires t in s.txs && (s.txs[t].Reviewing? ==> s.txs[t].outcome.Some?)
  {
    match s.txs[t]
    case Reviewing(car, w, _, outcome) =>
      DropTx(s, t).(assets := WithWrite(s.assets, w), cars := s.cars[car := outcome.value])
    case Approving(car, _, _) => DropTx(s, t).(cars := s.cars[car := CarApproved])
    case Uploading(car, assets) => DropTx(s, t).(assets := s.assets + assets, shells := s.shells - {car})
  }

  // ----- runs

  const EMPTY: State := State(map[], map[], {}, map[])

  ghost predicate ValidRun(s: State, run: seq<Step>)
    decreases |run|
  {
    run != [] ==> Enabled(s, run[0]) && ValidRun(Do(s, run[0]), run[1..])
  }

  ghost function After(s: State, run: seq<Step>): State
    decreases |run|
  {
    if run == [] || !Enabled(s, run[0]) then s else After(Do(s, run[0]), run[1..])
  }

  ghost predicate Reachable(s: State)
  {
    exists run :: ValidRun(EMPTY, run) && After(EMPTY, run) == s
  }

  lemma {:induction false} AppendStep(s: State, run: seq<Step>, step: Step)
    requires ValidRun(s, run) && Enabled(After(s, run), step)
    ensures ValidRun(s, run + [step]) && After(s, run + [step]) == Do(After(s, run), step)
    decreases |run|
  {
    if run == [] {
      assert run + [step] == [step];
      assert [step][1..] == [];
    } else {
      assert (run + [step])[1..] == run[1..] + [step];
      AppendStep(Do(s, run[0]), run[1..], step);
    }
  }

  lemma Take(s: State, step: Step)
    requires Reachable(s) && Enabled(s, step)
    ensures Reachable(Do(s, step))
  {
    var run :| ValidRun(EMPTY, run) && After(EMPTY, run) == s;
    AppendStep(EMPTY, run, step);
  }

  // ----- invariants

  /** The promise: a committed car is approved exactly when it is fully reviewed. */
  ghost predicate Exact(s: State)
  {
    forall car :: car in s.cars ==> (s.cars[car].CarApproved? <==> FullyReviewed(s.assets, car))
  }

  ghost predicate AssetsOk(s: State)
  {
    && (forall a :: a in s.assets ==> s.assets[a].car in s.cars && s.assets[a].car !in s.shells)
    && s.shells <= s.cars.Keys
  }

  /** A review waits for the lock of its own car, while another transaction of that car holds it, and for nothing else. */
  lemma LocksArePerCar(s: State, t: nat)
    requires t in s.txs && !s.txs[t].Uploading?
    ensures Enabled(s, LockCar(t)) <==>
      forall u :: u in s.txs && u != t && !s.txs[u].Uploading? && s.txs[u].car == s.txs[t].car ==> !s.txs[u].carLocked
  {}

  /** A failed upload takes its car away again and leaves everything as it was before the car. */
  lemma FailedUploadUndoesTheCar(s: State, car: nat)
    requires car !in s.cars && car !in s.shells && forall u :: u in s.txs ==> s.txs[u].car != car
    ensures Enabled(s, CreateShell(car)) && Enabled(Do(s, CreateShell(car)), FailUpload(car))
    ensures Do(Do(s, CreateShell(car)), FailUpload(car)) == s
  {
    assert s.cars[car := CarPending] - {car} == s.cars;
    assert s.shells + {car} - {car} == s.shells;
  }

  /** What a transaction relies on while it runs; a finished one has settled what its car will be. */
  ghost predicate TxOk(s: State, tx: Tx)
  {
    match tx
    case Reviewing(car, w, carLocked, outcome) =>
      && w.asset in s.assets && s.assets[w.asset].car == car
      && (outcome.Some? ==> carLocked && car in s.cars)
      && (outcome.Some? ==> (outcome.value.CarApproved? <==> FullyReviewed(WithWrite(s.assets, w), car)))
    case Approving(car, carLocked, finished) =>
      finished ==> carLocked && car in s.cars && FullyReviewed(s.assets, car)
    case Uploading(car, assets) =>
      && car in s.shells && car in s.cars
      && forall a :: a in assets ==> a !in s.assets && assets[a].car == car && assets[a].status.PendingReview?
  }

  predicate Collide(t: Tx, u: Tx)
  {
    || (!t.Uploading? && LocksCar(t, t.car) && LocksCar(u, t.car))
    || (t.Reviewing? && u.Reviewing? && t.write.asset == u.write.asset)
    || (t.Uploading? && u.Uploading? && (t.car == u.car || !(t.assets.Keys !! u.assets.Keys)))
  }

  ghost predicate TxsOk(s: State)
  {
    && (forall t :: t in s.txs ==> TxOk(s, s.txs[t]))
    && (forall t, u :: t in s.txs && u in s.txs && t != u ==> !Collide(s.txs[t], s.txs[u]))
  }

  ghost predicate Inv(s: State) { Exact(s) && AssetsOk(s) && TxsOk(s) }

  // ----- review of one car depends on its own assets only

  predicate SameAssets(a: map<nat, Asset>, b: map<nat, Asset>, car: nat)
  {
    && (forall id :: id in a && a[id].car == car ==> id in b && b[id] == a[id])
    && (forall id :: id in b && b[id].car == car ==> id in a && a[id] == b[id])
  }

  lemma SameReview(a: map<nat, Asset>, b: map<nat, Asset>, car: nat)
    requires SameAssets(a, b, car)
    ensures FullyReviewed(a, car) == FullyReviewed(b, car)
  {
    forall kind ensures HasApproved(a, car, kind) == HasApproved(b, car, kind) {
      if HasApproved(a, car, kind) {
        var x :| x in a && a[x].car == car && a[x].kind == kind && a[x].status.Approved?;
        assert x in b && b[x] == a[x];
      }
      if HasApproved(b, car, kind) {
        var x :| x in b && b[x].car == car && b[x].kind == kind && b[x].status.Approved?;
        assert x in a && a[x] == b[x];
      }
    }
    if Unresolved(a, car) {
      var x :| x in a && a[x].car == car && !a[x].status.Approved?;
      assert x in b && b[x] == a[x];
    }
    if Unresolved(b, car) {
      var x :| x in b && b[x].car == car && !b[x].status.Approved?;
      assert x in a && a[x] == b[x];
    }
  }

  lemma WriteSparesOtherCars(assets: map<nat, Asset>, w: Write, car: nat)
    requires w.asset in assets && assets[w.asset].car != car
    ensures FullyReviewed(WithWrite(assets, w), car) == FullyReviewed(assets, car)
  {
    SameReview(WithWrite(assets, w), assets, car);
  }

  /** Approving one more asset of a fully reviewed car leaves it fully reviewed. */
  lemma ApprovalKeepsReview(assets: map<nat, Asset>, w: Write, car: nat)
    requires w.status.Approved? && w.asset in assets && assets[w.asset].car == car && FullyReviewed(assets, car)
    ensures FullyReviewed(WithWrite(assets, w), car)
  {
    var after := WithWrite(assets, w);
    forall kind | HasApproved(assets, car, kind) ensures HasApproved(after, car, kind) {
      var x :| x in assets && assets[x].car == car && assets[x].kind == kind && assets[x].status.Approved?;
      assert x in after && after[x] == assets[x];
    }
    forall x | x in after && after[x].car == car ensures after[x].status.Approved? {
      if x != w.asset { assert assets[x].status.Approved?; }
    }
  }

  /** An asset that is not approved keeps its car from being fully reviewed. */
  lemma UnresolvedBlocks(assets: map<nat, Asset>, w: Write)
    requires w.asset in assets && !w.status.Approved?
    ensures !FullyReviewed(WithWrite(assets, w), assets[w.asset].car)
  {
    assert WithWrite(assets, w)[w.asset].status == w.status;
  }

  // ----- every step keeps the invariant

  lemma TxStepKeepsInv(s: State, t: nat, tx: Tx)
    requires Inv(s) && TxOk(s, tx)
    requires forall u :: u in s.txs && u != t ==> !Collide(tx, s.txs[u]) && !Collide(s.txs[u], tx)
    ensures Inv(SetTx(s, t, tx))
  {
    var v := SetTx(s, t, tx);
    forall u | u in v.txs ensures TxOk(v, v.txs[u]) { if u != t { assert TxOk(s, s.txs[u]); } }
    forall u, x | u in v.txs && x in v.txs && u != x ensures !Collide(v.txs[u], v.txs[x]) {
      if u != t && x != t { assert !Collide(s.txs[u], s.txs[x]); }
    }
  }

  lemma DropKeepsInv(s: State, t: nat)
    requires Inv(s)
    ensures Inv(DropTx(s, t))
  {
    var v := DropTx(s, t);
    forall u | u in v.txs ensures TxOk(v, v.txs[u]) { assert TxOk(s, s.txs[u]); }
    forall u, x | u in v.txs && x in v.txs && u != x ensures !Collide(v.txs[u], v.txs[x]) {
      assert !Collide(s.txs[u], s.txs[x]);
    }
  }

  lemma BeginKeepsInv(s: State, step: Step)
    requires Inv(s) && Enabled(s, step) && (step.BeginUpload? || step.BeginReview? || step.BeginApproveCar?)
    ensures Inv(Do(s, step))
  {
    TxStepKeepsInv(s, step.t, Do(s, step).txs[step.t]);
  }

  lemma LockKeepsInv(s: State, t: nat)
    requires Inv(s) && Enabled(s, LockCar(t))
    ensures Inv(Do(s, LockCar(t)))
  {
    var tx := s.txs[t].(carLocked := true);
    assert TxOk(s, s.txs[t]);
    forall u | u in s.txs && u != t ensures !Collide(tx, s.txs[u]) && !Collide(s.txs[u], tx) {
      assert !Collide(s.txs[t], s.txs[u]) && !Collide(s.txs[u], s.txs[t]) && !LocksCar(s.txs[u], tx.car);
    }
    TxStepKeepsInv(s, t, tx);
  }

  /** The outcome a reviewer settles on is the right one for the assets it is about to commit. */
  lemma OutcomeIsExact(s: State, tx: Tx)
    requires Inv(s) && tx.Reviewing? && tx.car in s.cars && TxOk(s, tx)
    ensures OutcomeFor(s, tx).CarApproved? <==> FullyReviewed(WithWrite(s.assets, tx.write), tx.car)
  {
    if !tx.write.status.Approved? {
      UnresolvedBlocks(s.assets, tx.write);
    } else if FullyReviewed(s.assets, tx.car) {
      ApprovalKeepsReview(s.assets, tx.write, tx.car);
    }
  }

  lemma FinishKeepsInv(s: State, t: nat)
    requires Inv(s) && Enabled(s, Finish(t))
    ensures Inv(DoFinish(s, t))
  {
    var tx := s.txs[t];
    assert TxOk(s, tx);
    if t !in DoFinish(s, t).txs {
      DropKeepsInv(s, t);
    } else {
      if tx.Reviewing? { OutcomeIsExact(s, tx); }
      var after := DoFinish(s, t).txs[t];
      forall u | u in s.txs && u != t ensures !Collide(after, s.txs[u]) && !Collide(s.txs[u], after) {
        assert !Collide(tx, s.txs[u]) && !Collide(s.txs[u], tx);
      }
      TxStepKeepsInv(s, t, after);
    }
  }

  /** What a change of the tables must leave alone for another transaction. */
  ghost predicate Spares(s: State, v: State, tx: Tx)
  {
    match tx
    case Reviewing(car, w, carLocked, outcome) =>
      && (forall a :: a in s.assets ==> a in v.assets && v.assets[a].car == s.assets[a].car)
      && (outcome.Some? ==> car in v.cars && SameAssets(s.assets, v.assets, car))
    case Approving(car, carLocked, finished) => finished ==> car in v.cars && SameAssets(s.assets, v.assets, car)
    case Uploading(car, assets) =>
      && (forall a :: a in v.assets && a !in s.assets ==> a !in assets)
      && (car in s.shells ==> car in v.shells) && (car in s.cars ==> car in v.cars)
  }

  lemma SparedTxOk(s: State, v: State, tx: Tx)
    requires TxOk(s, tx) && Spares(s, v, tx)
    ensures TxOk(v, tx)
  {
    if tx.Reviewing? && tx.outcome.Some? {
      SameReview(WithWrite(s.assets, tx.write), WithWrite(v.assets, tx.write), tx.car);
    }
    if tx.Approving? && tx.finished { SameReview(s.assets, v.assets, tx.car); }
  }

  lemma TxsSurvive(s: State, v: State)
    requires TxsOk(s)
    requires forall t :: t in v.txs ==> t in s.txs && v.txs[t] == s.txs[t] && Spares(s, v, s.txs[t])
    ensures TxsOk(v)
  {
    forall t | t in v.txs ensures TxOk(v, v.txs[t]) {
      assert TxOk(s, s.txs[t]);
      SparedTxOk(s, v, s.txs[t]);
    }
    forall t, u | t in v.txs && u in v.txs && t != u ensures !Collide(v.txs[t], v.txs[u]) {
      assert !Collide(s.txs[t], s.txs[u]);
    }
  }

  lemma ReviewCommitKeepsInv(s: State, t: nat)
    requires Inv(s) && Enabled(s, Commit(t)) && s.txs[t].Reviewing?
    ensures Inv(DoCommit(s, t))
  {
    var tx := s.txs[t];
    var v := DoCommit(s, t);
    assert TxOk(s, tx);
    forall car | car in v.cars ensures v.cars[car].CarApproved? <==> FullyReviewed(v.assets, car) {
      if car != tx.car { WriteSparesOtherCars(s.assets, tx.write, car); }
    }
    forall u | u in v.txs ensures Spares(s, v, s.txs[u]) {
      assert TxOk(s, s.txs[u]) && !Collide(tx, s.txs[u]) && !Collide(s.txs[u], tx);
    }
    TxsSurvive(s, v);
  }

  lemma ApproveCommitKeepsInv(s: State, t: nat)
    requires Inv(s) && Enabled(s, Commit(t)) && s.txs[t].Approving?
    ensures Inv(DoCommit(s, t))
  {
    var v := DoCommit(s, t);
    assert TxOk(s, s.txs[t]);
    forall u | u in v.txs ensures Spares(s, v, s.txs[u]) { assert TxOk(s, s.txs[u]); }
    TxsSurvive(s, v);
  }

  lemma UploadCommitKeepsInv(s: State, t: nat)
    requires Inv(s) && Enabled(s, Commit(t)) && s.txs[t].Uploading?
    ensures Inv(DoCommit(s, t))
  {
    var tx := s.txs[t];
    var v := DoCommit(s, t);
    assert TxOk(s, tx);
    forall car | car in v.cars ensures v.cars[car].CarApproved? <==> FullyReviewed(v.assets, car) {
      if car != tx.car {
        SameReview(s.assets, v.assets, car);
      } else {
        assert !HasApproved(s.assets, car, Image) && !HasApproved(v.assets, car, Image);
      }
    }
    forall u | u in v.txs ensures Spares(s, v, s.txs[u]) {
      assert TxOk(s, s.txs[u]) && !Collide(tx, s.txs[u]) && !Collide(s.txs[u], tx);
      if s.txs[u].Approving? && s.txs[u].finished {
        assert HasApproved(s.assets, s.txs[u].car, Image);
      }
    }
    TxsSurvive(s, v);
  }

  lemma ShellStepKeepsInv(s: State, step: Step)
    requires Inv(s) && Enabled(s, step) && (step.CreateShell? || step.FailUpload?)
    ensures Inv(Do(s, step))
  {
    var v := Do(s, step);
    if step.CreateShell? { assert !HasApproved(s.assets, step.car, Image); }
    forall u | u in v.txs ensures Spares(s, v, s.txs[u]) {
      assert TxOk(s, s.txs[u]);
      if step.FailUpload? { assert !LocksCar(s.txs[u], step.car); }
    }
    TxsSurvive(s, v);
  }

  lemma StepKeepsInv(s: State, step: Step)
    requires Inv(s) && Enabled(s, step)
    ensures Inv(Do(s, step))
  {
    match step
    case CreateShell(car) => ShellStepKeepsInv(s, step);
    case FailUpload(car) => ShellStepKeepsInv(s, step);
    case LockCar(t) => LockKeepsInv(s, t);
    case Finish(t) => FinishKeepsInv(s, t);
    case Abort(t) => DropKeepsInv(s, t);
    case Commit(t) =>
      if s.txs[t].Reviewing? { ReviewCommitKeepsInv(s, t); }
      else if s.txs[t].Approving? { ApproveCommitKeepsInv(s, t); }
      else { UploadCommitKeepsInv(s, t); }
    case _ => BeginKeepsInv(s, step);
  }

  lemma {:induction false} RunKeepsInv(s: State, run: seq<Step>)
    requires Inv(s) && ValidRun(s, run)
    ensures Inv(After(s, run))
    decreases |run|
  {
    if run != [] {
      StepKeepsInv(s, run[0]);
      RunKeepsInv(Do(s, run[0]), run[1..]);
    }
  }

  lemma ReachableInv(s: State)
    requires Reachable(s)
    ensures Inv(s)
  {
    var run :| ValidRun(EMPTY, run) && After(EMPTY, run) == s;
    RunKeepsInv(EMPTY, run);
  }

  // ----- what holds of every run

  /** In every committed state a car is approved if and only if it is fully reviewed. */
  lemma ApprovalIsExact(s: State, car: nat)
    requires Reachable(s) && car in s.cars
    ensures s.cars[car].CarApproved? <==> FullyReviewed(s.assets, car)
  {
    ReachableInv(s);
  }

  /** A car with a rejected or pending asset is not approved, whoever has just approved what. */
  lemma RejectedAssetBlocks(s: State, a: nat)
    requires Reachable(s) && a in s.assets && !s.assets[a].status.Approved?
    ensures s.assets[a].car in s.cars && s.cars[s.assets[a].car].CarPending?
  {
    ReachableInv(s);
  }

  /** The last approval approves the car, even when the two last approvals overlap. */
  lemma LastApprovalApproves(s: State, t: nat)
    requires Reachable(s) && Enabled(s, Commit(t)) && s.txs[t].Reviewing?
    requires FullyReviewed(WithWrite(s.assets, s.txs[t].write), s.txs[t].car)
    ensures DoCommit(s, t).cars[s.txs[t].car].CarApproved?
  {
    ReachableInv(s);
    assert TxOk(s, s.txs[t]);
  }
}
