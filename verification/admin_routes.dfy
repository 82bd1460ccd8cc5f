/**
 * The admin handlers: the review queue on the dashboard, the email testing
 * toggle, and the review of a pending dispatch, which approves it and
 * back-fills the missing QC slip.
 */
module AdminRoutes {
  import opened Common
  import opened SlipIds
  import opened Documents
  import opened DispatchRoutes

  // ---------------------------------------------------------------------------
  // Dashboard
  // ---------------------------------------------------------------------------

  /** `slips.find({'status': 'Dispatched - Pending Review'})`, in stored order. */
  function FlaggedOrders(slips: seq<Slip>): (r: seq<Slip>)
    ensures forall s :: s in r ==> s in slips && s.status == StatusPendingReview
    ensures forall i :: 0 <= i < |slips| && slips[i].status == StatusPendingReview ==> slips[i] in r
    ensures |r| <= |slips|
    ensures forall s :: multiset(r)[s] == if s.status == StatusPendingReview then multiset(slips)[s] else 0
  {
    if slips == [] then []
    else
      var init := slips[..|slips| - 1];
      var last := slips[|slips| - 1];
      assert forall i :: 0 <= i < |slips| - 1 ==> slips[i] == init[i];
      assert slips == init + [last];
      FlaggedOrders(init) + (if last.status == StatusPendingReview then [last] else [])
  }

  /** The stored `testing_mode`, ON when the document or the field is absent. */
  function EffectiveTestingMode(settings: Option<EmailConfig>): (on: bool)
    ensures settings.None? ==> on
    ensures settings.Some? && settings.value.testingMode.None? ==> on
    ensures settings.Some? && settings.value.testingMode.Some? ==> on == settings.value.testingMode.value
  {
    match settings
    case None => true
    case Some(config) => if config.testingMode.Some? then config.testingMode.value else true
  }

  /** What the dashboard shows: the flagged slips and the effective testing mode. */
  method Dashboard(db: Db) returns (flagged: seq<Slip>, emailTestingStatus: bool)
    ensures forall s :: s in flagged <==> s in db.slips && s.status == StatusPendingReview
    ensures forall s :: multiset(flagged)[s] == if s.status == StatusPendingReview then multiset(db.slips)[s] else 0
    ensures emailTestingStatus == EffectiveTestingMode(db.settings)
  {
    flagged := FlaggedOrders(db.slips);
    emailTestingStatus := EffectiveTestingMode(db.settings);
  }

  // ---------------------------------------------------------------------------
  // Email testing toggle
  // ---------------------------------------------------------------------------

  /** The settings after `update_one(..., {'$set': {'testing_mode': new}}, upsert=True)`. */
  function ToggledSettings(settings: Option<EmailConfig>): (r: Option<EmailConfig>)
    ensures EffectiveTestingMode(r) == !EffectiveTestingMode(settings)
    ensures r.Some? && r.value.testingMode.Some?
  {
    Some(EmailConfig(Some(!EffectiveTestingMode(settings))))
  }

  /** Toggling twice restores the effective value, whether or not it was stored. */
  lemma ToggleTwiceRestores(settings: Option<EmailConfig>)
    ensures EffectiveTestingMode(ToggledSettings(ToggledSettings(settings))) == EffectiveTestingMode(settings)
    ensures ToggledSettings(ToggledSettings(settings)) == Some(EmailConfig(Some(EffectiveTestingMode(settings))))
  {
  }

  /** `toggle_email_testing`. */
  method ToggleEmailTesting(db: Db) returns (newStatus: bool)
    requires db.Valid()
    modifies db`settings
    ensures db.Valid()
    ensures newStatus == !EffectiveTestingMode(old(db.settings))
    ensures db.settings == ToggledSettings(old(db.settings))
  {
    var currentStatus := EffectiveTestingMode(db.settings);
    newStatus := !currentStatus;
    db.settings := Some(EmailConfig(Some(newStatus)));
  }

  // ---------------------------------------------------------------------------
  // Dispatch review
  // ---------------------------------------------------------------------------

  /** The retroactive QC slip a review inserts; it has no `slip_id`. */
  function RetroactiveQc(order: Option<string>, reviewer: string, comments: Option<string>, createdAt: int): Slip {
    Slip(None, order, StatusComplete, createdAt, RetroactiveQcDetail(reviewer, comments), None)
  }

  /**
   * The slips after the `update_one` of a review alone: slip `k` becomes
   * `Dispatched` with the reviewer stamped on it, whatever its status was.
   * This is what stays stored when the `insert_one` that follows raises.
   */
  function ApprovedSlips(slips: seq<Slip>, k: nat, reviewer: string, reviewedAt: int): (r: seq<Slip>)
    requires k < |slips|
    ensures |r| == |slips|
    ensures forall i :: 0 <= i < |slips| && i != k ==> r[i] == slips[i]
    ensures r[k].status == StatusDispatched && r[k].review == Some(Review(reviewer, reviewedAt))
    ensures r[k].slipId == slips[k].slipId && r[k].orderNumber == slips[k].orderNumber
    ensures r[k].detail == slips[k].detail && r[k].createdAt == slips[k].createdAt
  {
    slips[k := slips[k].(status := StatusDispatched, review := Some(Review(reviewer, reviewedAt)))]
  }

  /**
   * The approval alone opens no gate: when the retroactive insert raises,
   * an order whose gate was closed stays closed, so its later dispatches are
   * still flagged although the reviewed slip is no longer in the queue.
   */
  lemma ApprovalAloneKeepsGateClosed(slips: seq<Slip>, k: nat, reviewer: string, reviewedAt: int, order: string)
    requires k < |slips|
    requires GateStatus(slips, order) == StatusPendingReview
    ensures GateStatus(ApprovedSlips(slips, k, reviewer, reviewedAt), order) == StatusPendingReview
    ensures ApprovedSlips(slips, k, reviewer, reviewedAt)[k].status != StatusPendingReview
  {
    var r := ApprovedSlips(slips, k, reviewer, reviewedAt);
    forall i | 0 <= i < |r|
      ensures !IsCompleteQcFor(r[i], order)
    {
      if i != k {
        assert r[i] == slips[i];
      }
    }
  }

  /**
   * The slips after a review of slip `k`: it becomes `Dispatched` with the
   * reviewer stamped on it, whatever its status was, and one retroactive QC
   * slip for its order is appended.
   */
  function ReviewedSlips(
    slips: seq<Slip>, k: nat, reviewer: string, comments: Option<string>, reviewedAt: int, createdAt: int)
    : (r: seq<Slip>)
    requires k < |slips|
    ensures |r| == |slips| + 1
    ensures forall i :: 0 <= i < |slips| && i != k ==> r[i] == slips[i]
    ensures r[k].status == StatusDispatched && r[k].review == Some(Review(reviewer, reviewedAt))
    ensures r[k].slipId == slips[k].slipId && r[k].orderNumber == slips[k].orderNumber
    ensures r[k].detail == slips[k].detail && r[k].createdAt == slips[k].createdAt
    ensures r[|slips|].SlipType() == "qc" && r[|slips|].status == StatusComplete
    ensures r[|slips|].slipId.None? && r[|slips|].orderNumber == slips[k].orderNumber
    ensures r[|slips|].detail == RetroactiveQcDetail(reviewer, comments)
    ensures r[|slips|].createdAt == createdAt && r[|slips|].review.None?
  {
    ApprovedSlips(slips, k, reviewer, reviewedAt) + [RetroactiveQc(slips[k].orderNumber, reviewer, comments, createdAt)]
  }

  /** After a review, a later dispatch for the same order passes the gate. */
  lemma ReviewPassesGate(
    slips: seq<Slip>, k: nat, reviewer: string, comments: Option<string>, reviewedAt: int, createdAt: int)
    requires k < |slips| && slips[k].orderNumber.Some?
    ensures GateStatus(ReviewedSlips(slips, k, reviewer, comments, reviewedAt, createdAt), slips[k].orderNumber.value)
            == StatusDispatched
  {
    var r := ReviewedSlips(slips, k, reviewer, comments, reviewedAt, createdAt);
    assert IsCompleteQcFor(r[|slips|], slips[k].orderNumber.value);
  }

  /**
   * A review never closes a gate that was open: even when the reviewed slip
   * was itself the complete QC slip, the retroactive one takes its place.
   */
  lemma ReviewKeepsOpenGates(
    slips: seq<Slip>, k: nat, reviewer: string, comments: Option<string>, reviewedAt: int, createdAt: int, order: string)
    requires k < |slips|
    requires GateStatus(slips, order) == StatusDispatched
    ensures GateStatus(ReviewedSlips(slips, k, reviewer, comments, reviewedAt, createdAt), order) == StatusDispatched
  {
    var r := ReviewedSlips(slips, k, reviewer, comments, reviewedAt, createdAt);
    var i :| 0 <= i < |slips| && IsCompleteQcFor(slips[i], order);
    if i == k {
      assert IsCompleteQcFor(r[|slips|], order);
    } else {
      assert IsCompleteQcFor(r[i], order);
    }
  }

  /** Inserting any slip never closes an open gate. */
  lemma AppendKeepsOpenGates(slips: seq<Slip>, s: Slip, order: string)
    requires GateStatus(slips, order) == StatusDispatched
    ensures GateStatus(slips + [s], order) == StatusDispatched
  {
    var i :| 0 <= i < |slips| && IsCompleteQcFor(slips[i], order);
    assert (slips + [s])[i] == slips[i];
  }

  datatype ReviewOutcome =
      /** The id is not an ObjectId; the conversion raises. */
    | InvalidId
    | NotFound
    | ReviewFormShown(slip: Slip)
    | Approved(orderNumber: Option<string>)
      /** The retroactive `insert_one` raised after the approval was stored; nothing catches it. */
    | InsertRaised

  /**
   * `review_dispatch`: an unknown id, or a GET, changes nothing; a POST
   * approves the slip and adds one retroactive QC slip, minting no id. The
   * two writes are separate: when the insert raises, the approval stays.
   */
  method ReviewDispatch(
    db: Db, slipIdText: string, isPost: bool, comments: Option<string>, reviewer: Actor,
    reviewedAt: int, createdAt: int, insertFails: bool)
    returns (outcome: ReviewOutcome)
    requires db.Valid()
    modifies db`slips
    ensures db.Valid()
    ensures ParseObjectId(slipIdText).None? ==> outcome == InvalidId && db.slips == old(db.slips)
    ensures ParseObjectId(slipIdText).Some? && ParseObjectId(slipIdText).value >= |old(db.slips)| ==>
      outcome == NotFound && db.slips == old(db.slips)
    ensures ParseObjectId(slipIdText).Some? && ParseObjectId(slipIdText).value < |old(db.slips)| ==>
      var k := ParseObjectId(slipIdText).value;
      if isPost && insertFails then
        && db.slips == ApprovedSlips(old(db.slips), k, reviewer.email, reviewedAt)
        && outcome == InsertRaised
      else if isPost then
        && db.slips == ReviewedSlips(old(db.slips), k, reviewer.email, comments, reviewedAt, createdAt)
        && outcome == Approved(old(db.slips)[k].orderNumber)
      else
        db.slips == old(db.slips) && outcome == ReviewFormShown(old(db.slips)[k])
  {
    var oid := ParseObjectId(slipIdText);
    if oid.None? {
      return InvalidId;
    }
    var k := oid.value;
    if k >= |db.slips| {
      return NotFound;
    }
    var slipToReview := db.slips[k];
    if !isPost {
      return ReviewFormShown(slipToReview);
    }
    db.SetReviewed(k, StatusDispatched, Review(reviewer.email, reviewedAt));
    if insertFails {
      return InsertRaised;
    }
    var retro := RetroactiveQc(slipToReview.orderNumber, reviewer.email, comments, createdAt);
    var _ := db.InsertSlip(retro);
    outcome := Approved(slipToReview.orderNumber);
  }
}
