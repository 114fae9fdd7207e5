/**
  The services that move a car through approval. Other transactions may be open when a method
  starts, as long as they hold neither the asset nor the car; the method's own transaction is then
  carried out without a break and proved to be a run of the machine.
 */
module CarApprovalRuntime {
  import opened Foundations
  import opened CarApproval

  datatype ApprovalError = CarNotFound | CarApprovalBlocked | ImageNotFound | DocumentNotFound | FileNotRejected

  /** Nobody else is writing this asset or holds its car. */
  ghost predicate FreeFor(s: State, t: nat, asset: nat)
  {
    t !in s.txs && (asset in s.assets ==> AssetFree(s, asset) && CarFree(s, t, s.assets[asset].car))
  }

  function ReviewedCars(s: State, w: Write): map<nat, CarStatus>
    requires w.asset in s.assets
  {
    var car := s.assets[w.asset].car;
    s.cars[car := if FullyReviewed(WithWrite(s.assets, w), car) then CarApproved else CarPending]
  }

  lemma SetAgain(s: State, t: nat, a: Tx, b: Tx)
    ensures SetTx(SetTx(s, t, a), t, b) == SetTx(s, t, b)
  {
    assert s.txs[t := a][t := b] == s.txs[t := b];
  }

  lemma DropAfterSet(s: State, t: nat, tx: Tx)
    requires t !in s.txs
    ensures DropTx(SetTx(s, t, tx), t) == s
  {
    assert s.txs[t := tx] - {t} == s.txs;
  }

  lemma ReviewLocked(s: State, t: nat, w: Write)
    requires Reachable(s) && w.asset in s.assets && FreeFor(s, t, w.asset) && MayWrite(s.assets[w.asset], w.status)
    ensures Reachable(SetTx(s, t, Reviewing(s.assets[w.asset].car, w, true, None)))
  {
    var car := s.assets[w.asset].car;
    Take(s, BeginReview(t, w));
    var begun := Reviewing(car, w, false, None);
    Take(SetTx(s, t, begun), LockCar(t));
    SetAgain(s, t, begun, Reviewing(car, w, true, None));
  }

  lemma ReviewFinished(s: State, t: nat, tx: Tx)
    requires Reachable(SetTx(s, t, tx)) && tx.Reviewing? && tx.carLocked && tx.car in s.cars
    ensures Reachable(SetTx(s, t, tx.(outcome := Some(OutcomeFor(s, tx)))))
  {
    assert OutcomeFor(SetTx(s, t, tx), tx) == OutcomeFor(s, tx);
    Take(SetTx(s, t, tx), Finish(t));
    SetAgain(s, t, tx, tx.(outcome := Some(OutcomeFor(s, tx))));
  }

  /** One review from the asset's write to the commit. */
  lemma ReviewRun(s: State, t: nat, w: Write)
    requires Reachable(s) && w.asset in s.assets && FreeFor(s, t, w.asset) && MayWrite(s.assets[w.asset], w.status)
    ensures s.assets[w.asset].car in s.cars
    ensures Reachable(s.(assets := WithWrite(s.assets, w), cars := ReviewedCars(s, w)))
  {
    ReachableInv(s);
    ReviewLocked(s, t, w);
    var locked := Reviewing(s.assets[w.asset].car, w, true, None);
    ReviewFinished(s, t, locked);
    OutcomeIsExact(s, locked);
    var finished := locked.(outcome := Some(OutcomeFor(s, locked)));
    Take(SetTx(s, t, finished), Commit(t));
    DropAfterSet(s, t, finished);
  }

  lemma ApproveCarRun(s: State, t: nat, car: nat)
    requires Reachable(s) && car in s.cars && t !in s.txs && CarFree(s, t, car) && FullyReviewed(s.assets, car)
    ensures Reachable(s.(cars := s.cars[car := CarApproved]))
  {
    Take(s, BeginApproveCar(t, car));
    Take(SetTx(s, t, Approving(car, false, false)), LockCar(t));
    SetAgain(s, t, Approving(car, false, false), Approving(car, true, false));
    ApproveCarFinishes(s, t, car);
  }

  lemma ApproveCarFinishes(s: State, t: nat, car: nat)
    requires Reachable(SetTx(s, t, Approving(car, true, false))) && car in s.cars && t !in s.txs && FullyReviewed(s.assets, car)
    ensures Reachable(s.(cars := s.cars[car := CarApproved]))
  {
    Take(SetTx(s, t, Approving(car, true, false)), Finish(t));
    SetAgain(s, t, Approving(car, true, false), Approving(car, true, true));
    Take(SetTx(s, t, Approving(car, true, true)), Commit(t));
    DropAfterSet(s, t, Approving(car, true, true));
  }

  lemma ShellRun(s: State, t: nat, car: nat, files: map<nat, Asset>)
    requires Reachable(s) && car !in s.cars && t !in s.txs
    requires forall a :: a in files ==> a !in s.assets && files[a].car == car && files[a].status.PendingReview?
    requires forall u :: u in s.txs && s.txs[u].Uploading? ==> s.txs[u].assets.Keys !! files.Keys
    ensures Reachable(SetTx(Do(s, CreateShell(car)), t, Uploading(car, files))) && car !in s.shells
  {
    ReachableInv(s);
    Take(s, CreateShell(car));
    forall u | u in s.txs && s.txs[u].Uploading? ensures s.txs[u].car != car { assert TxOk(s, s.txs[u]); }
    Take(Do(s, CreateShell(car)), BeginUpload(t, car, files));
  }

  lemma UploadRun(s: State, t: nat, car: nat, files: map<nat, Asset>)
    requires Reachable(s) && car !in s.cars && t !in s.txs
    requires forall a :: a in files ==> a !in s.assets && files[a].car == car && files[a].status.PendingReview?
    requires forall u :: u in s.txs && s.txs[u].Uploading? ==> s.txs[u].assets.Keys !! files.Keys
    ensures Reachable(s.(cars := s.cars[car := CarPending], assets := s.assets + files))
  {
    ShellRun(s, t, car, files);
    var shell := Do(s, CreateShell(car));
    Take(SetTx(shell, t, Uploading(car, files)), Commit(t));
    DropAfterSet(shell, t, Uploading(car, files));
    assert s.shells + {car} - {car} == s.shells;
  }

  // ----- counting

  /** What the three counts and the list of document types select of a car's rows. */
  datatype Selection = UnresolvedDocuments | UnresolvedImages | ApprovedImages
  {
    predicate Takes(a: Asset)
    {
      match this
      case UnresolvedDocuments => !a.kind.Image? && !a.status.Approved?
      case UnresolvedImages => a.kind.Image? && !a.status.Approved?
      case ApprovedImages => a.kind.Image? && a.status.Approved?
    }
  }

  predicate IsRequired(kind: Kind) { kind.MotCertificate? || kind.InsuranceCertificate? }

  function Selected(assets: map<nat, Asset>, ids: set<nat>, car: nat, selection: Selection): set<nat>
  {
    set a | a in ids && a in assets && assets[a].car == car && selection.Takes(assets[a])
  }

  /** The distinct types of a car's approved required documents. */
  function ApprovedTypes(assets: map<nat, Asset>, ids: set<nat>, car: nat): set<Kind>
  {
    set a | a in ids && a in assets && assets[a].car == car && assets[a].status.Approved? && IsRequired(assets[a].kind) :: assets[a].kind
  }

  datatype Tally = Tally(unresolvedDocuments: nat, unresolvedImages: nat, approvedImages: nat, approvedTypes: set<Kind>)

  ghost predicate Counts(t: Tally, assets: map<nat, Asset>, ids: set<nat>, car: nat)
  {
    && t.unresolvedDocuments == |Selected(assets, ids, car, UnresolvedDocuments)|
    && t.unresolvedImages == |Selected(assets, ids, car, UnresolvedImages)|
    && t.approvedImages == |Selected(assets, ids, car, ApprovedImages)|
    && t.approvedTypes == ApprovedTypes(assets, ids, car)
  }

  function Counted(t: Tally, a: Asset, car: nat): Tally
  {
    if a.car != car then t
    else Tally(
      t.unresolvedDocuments + (if UnresolvedDocuments.Takes(a) then 1 else 0),
      t.unresolvedImages + (if UnresolvedImages.Takes(a) then 1 else 0),
      t.approvedImages + (if ApprovedImages.Takes(a) then 1 else 0),
      t.approvedTypes + (if a.status.Approved? && IsRequired(a.kind) then {a.kind} else {}))
  }

  lemma OneMoreSelected(assets: map<nat, Asset>, ids: set<nat>, id: nat, car: nat, selection: Selection)
    requires id in assets && id !in ids
    ensures |Selected(assets, ids + {id}, car, selection)|
         == |Selected(assets, ids, car, selection)| + (if assets[id].car == car && selection.Takes(assets[id]) then 1 else 0)
  {
    var before := Selected(assets, ids, car, selection);
    var after := Selected(assets, ids + {id}, car, selection);
    assert after == if assets[id].car == car && selection.Takes(assets[id]) then before + {id} else before;
  }

  lemma OneMoreCounted(t: Tally, assets: map<nat, Asset>, ids: set<nat>, id: nat, car: nat)
    requires Counts(t, assets, ids, car) && id in assets && id !in ids
    ensures Counts(Counted(t, assets[id], car), assets, ids + {id}, car)
  {
    OneMoreSelected(assets, ids, id, car, UnresolvedDocuments);
    OneMoreSelected(assets, ids, id, car, UnresolvedImages);
    OneMoreSelected(assets, ids, id, car, ApprovedImages);
  }

  /** What the source concludes from its counts is what a full review means. */
  predicate CountsAreFull(t: Tally)
  {
    t.unresolvedDocuments == 0 && t.unresolvedImages == 0 && t.approvedImages > 0
    && MotCertificate in t.approvedTypes && InsuranceCertificate in t.approvedTypes
  }

  lemma CountsDecideReview(t: Tally, assets: map<nat, Asset>, car: nat)
    requires Counts(t, assets, assets.Keys, car)
    ensures CountsAreFull(t) <==> FullyReviewed(assets, car)
  {
    var documents := Selected(assets, assets.Keys, car, UnresolvedDocuments);
    var images := Selected(assets, assets.Keys, car, UnresolvedImages);
    assert Unresolved(assets, car) <==> documents != {} || images != {} by {
      if a :| a in assets && assets[a].car == car && !assets[a].status.Approved? {
        assert a in if assets[a].kind.Image? then images else documents;
      }
    }
    var approved := Selected(assets, assets.Keys, car, ApprovedImages);
    assert HasApproved(assets, car, Image) <==> approved != {} by {
      if a :| a in assets && assets[a].car == car && assets[a].kind == Image && assets[a].status.Approved? { assert a in approved; }
    }
  }

  class CarApprovalService {
    var cars: map<nat, CarStatus>
    var assets: map<nat, Asset>
    ghost var state: State

    ghost predicate Valid()
      reads this
    {
      Reachable(state) && state.cars == cars && state.assets == assets
    }

    constructor ()
      ensures Valid() && cars == map[] && assets == map[] && state.txs == map[]
    {
      cars, assets, state := map[], map[], EMPTY;
      new;
      assert ValidRun(EMPTY, []) && After(EMPTY, []) == EMPTY;
    }

    /** The counts of a car's unresolved and approved rows, row by row. */
    method CountReview(carId: nat) returns (t: Tally)
      ensures Counts(t, assets, assets.Keys, carId)
    {
      t := Tally(0, 0, 0, {});
      var remaining := assets.Keys;
      ghost var done: set<nat> := {};
      while remaining != {}
        invariant remaining !! done && remaining + done == assets.Keys
        invariant Counts(t, assets, done, carId)
        decreases |remaining|
      {
        var id :| id in remaining;
        OneMoreCounted(t, assets, done, id, carId);
        t := Counted(t, assets[id], carId);
        remaining := remaining - {id};
        done := done + {id};
      }
      assert done == assets.Keys;
    }

    /** `approveCarIfFullyReviewed`: promotes the car if, and only if, the counts of its assets as just written allow it. */
    method ApproveCarIfFullyReviewed(carId: nat) returns (approved: bool)
      modifies `cars
      ensures approved == FullyReviewed(assets, carId)
      ensures cars == if approved then old(cars)[carId := CarApproved] else old(cars)
    {
      var t := CountReview(carId);
      CountsDecideReview(t, assets, carId);
      approved := t.unresolvedDocuments == 0 && t.unresolvedImages == 0 && t.approvedImages > 0
        && MotCertificate in t.approvedTypes && InsuranceCertificate in t.approvedTypes;
      if approved {
        cars := cars[carId := CarApproved];
      }
    }

    method ApproveCar(t: nat, carId: nat) returns (result: Result<nat, ApprovalError>)
      requires Valid() && t !in state.txs && CarFree(state, t, carId)
      modifies this
      ensures Valid() && state.txs == old(state).txs && assets == old(assets)
      ensures result ==
        if carId !in old(cars) then Err(CarNotFound)
        else if FullyReviewed(assets, carId) then Ok(carId)
        else Err(CarApprovalBlocked)
      ensures cars == if result.Ok? then old(cars)[carId := CarApproved] else old(cars)
    {
      if carId !in cars {
        return Err(CarNotFound);
      }
      ghost var before := state;
      var approved := ApproveCarIfFullyReviewed(carId);
      if approved {
        ApproveCarRun(before, t, carId);
        state := before.(cars := cars);
        result := Ok(carId);
      } else {
        result := Err(CarApprovalBlocked);
      }
    }

    /** `approveImage` and `approveDocument`: the asset first, then the car if that was the last one. */
    method ApproveAsset(t: nat, carId: nat, assetId: nat) returns (result: Result<nat, ApprovalError>)
      requires Valid() && FreeFor(state, t, assetId)
      modifies this
      ensures Valid() && state.txs == old(state).txs
      ensures result == if assetId in old(assets) && old(assets)[assetId].car == carId then Ok(assetId) else Err(ImageNotFound)
      ensures assets == if result.Ok? then WithWrite(old(assets), Write(assetId, Approved)) else old(assets)
      ensures cars == if result.Ok? && FullyReviewed(assets, carId) then old(cars)[carId := CarApproved] else old(cars)
    {
      if assetId !in assets || assets[assetId].car != carId {
        return Err(ImageNotFound);
      }
      ghost var before := state;
      ReviewRun(before, t, Write(assetId, Approved));
      ApprovedOrUnchanged(before, assetId);
      assets := assets[assetId := assets[assetId].(status := Approved)];
      var approved := ApproveCarIfFullyReviewed(carId);
      state := before.(assets := WithWrite(before.assets, Write(assetId, Approved)), cars := ReviewedCars(before, Write(assetId, Approved)));
      result := Ok(assetId);
    }

    /** `rejectImage` and `rejectDocument`: the car falls back to pending with its asset. */
    method RejectAsset(t: nat, carId: nat, assetId: nat) returns (result: Result<nat, ApprovalError>)
      requires Valid() && FreeFor(state, t, assetId)
      modifies this
      ensures Valid() && state.txs == old(state).txs
      ensures result == if assetId in old(assets) && old(assets)[assetId].car == carId then Ok(assetId) else Err(ImageNotFound)
      ensures assets == if result.Ok? then WithWrite(old(assets), Write(assetId, Rejected)) else old(assets)
      ensures cars == if result.Ok? then old(cars)[carId := CarPending] else old(cars)
    {
      if assetId !in assets || assets[assetId].car != carId {
        return Err(ImageNotFound);
      }
      Demote(t, assetId, Rejected);
      result := Ok(assetId);
    }

    /** `replaceRejectedFile`: only a rejected file is replaced; it goes back to review and the car out of public search. */
    method ReplaceRejectedFile(t: nat, carId: nat, assetId: nat) returns (result: Result<nat, ApprovalError>)
      requires Valid() && FreeFor(state, t, assetId)
      modifies this
      ensures Valid() && state.txs == old(state).txs
      ensures result ==
        if assetId !in old(assets) || old(assets)[assetId].car != carId then Err(DocumentNotFound)
        else if !old(assets)[assetId].status.Rejected? then Err(FileNotRejected)
        else Ok(assetId)
      ensures assets == if result.Ok? then WithWrite(old(assets), Write(assetId, PendingReview)) else old(assets)
      ensures cars == if result.Ok? then old(cars)[carId := CarPending] else old(cars)
    {
      if assetId !in assets || assets[assetId].car != carId {
        return Err(DocumentNotFound);
      }
      if !assets[assetId].status.Rejected? {
        return Err(FileNotRejected);
      }
      Demote(t, assetId, PendingReview);
      result := Ok(assetId);
    }

    method Demote(t: nat, assetId: nat, status: ReviewStatus)
      requires Valid() && FreeFor(state, t, assetId) && assetId in assets && !status.Approved?
      requires MayWrite(assets[assetId], status)
      modifies this
      ensures Valid() && state.txs == old(state).txs
      ensures assets == WithWrite(old(assets), Write(assetId, status))
      ensures cars == old(cars)[old(assets)[assetId].car := CarPending]
    {
      ghost var before := state;
      ReviewRun(before, t, Write(assetId, status));
      UnresolvedBlocks(before.assets, Write(assetId, status));
      cars := cars[assets[assetId].car := CarPending];
      assets := assets[assetId := assets[assetId].(status := status)];
      state := before.(assets := WithWrite(before.assets, Write(assetId, status)), cars := ReviewedCars(before, Write(assetId, status)));
    }

    /** `createCar`: the shell and then its files, all of them pending. */
    method CreateCar(t: nat, carId: nat, files: map<nat, Kind>)
      requires Valid() && carId !in cars && t !in state.txs && files.Keys !! assets.Keys
      requires forall u :: u in state.txs && state.txs[u].Uploading? ==> state.txs[u].assets.Keys !! files.Keys
      modifies this
      ensures Valid() && state.txs == old(state).txs
      ensures cars == old(cars)[carId := CarPending]
      ensures assets == old(assets) + (map a | a in files :: Asset(carId, files[a], PendingReview))
    {
      var created := map a | a in files :: Asset(carId, files[a], PendingReview);
      assert created.Keys == files.Keys;
      UploadRun(state, t, carId, created);
      cars := cars[carId := CarPending];
      assets := assets + created;
      state := state.(cars := cars, assets := assets);
    }
  }

  /** After an approval the car is approved if that completes the review, and what it was otherwise. */
  lemma ApprovedOrUnchanged(s: State, a: nat)
    requires Reachable(s) && a in s.assets
    ensures var w := Write(a, Approved);
      ReviewedCars(s, w) ==
        if FullyReviewed(WithWrite(s.assets, w), s.assets[a].car) then s.cars[s.assets[a].car := CarApproved] else s.cars
  {
    ReachableInv(s);
    var w := Write(a, Approved);
    var car := s.assets[a].car;
    if FullyReviewed(s.assets, car) { ApprovalKeepsReview(s.assets, w, car); }
    if !FullyReviewed(WithWrite(s.assets, w), car) { assert s.cars[car := CarPending] == s.cars; }
  }
}
