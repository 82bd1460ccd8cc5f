/**
 * The dispatch handler: mint a `DIS-` id, record the uploaded images, and
 * choose the new slip's status by the QC dependency gate.
 */
module DispatchRoutes {
  import opened Common
  import opened SlipIds
  import opened Documents

  /** The query `{'slip_type': 'qc', 'order_number': order, 'status': 'Complete'}` matches `s`. */
  predicate IsCompleteQcFor(s: Slip, order: string) {
    s.SlipType() == "qc" && s.orderNumber == Some(order) && s.status == StatusComplete
  }

  /** Some stored slip is a complete QC slip for the order. */
  ghost predicate HasCompleteQc(slips: seq<Slip>, order: string) {
    exists i :: 0 <= i < |slips| && IsCompleteQcFor(slips[i], order)
  }

  /** `find_one` over the matching slips, scanning in stored order from `from`. */
  function FindCompleteQcFrom(slips: seq<Slip>, order: string, from: nat): (r: Option<nat>)
    requires from <= |slips|
    ensures r.Some? ==> from <= r.value < |slips| && IsCompleteQcFor(slips[r.value], order)
    ensures r.Some? ==> forall j :: from <= j < r.value ==> !IsCompleteQcFor(slips[j], order)
    ensures r.None? ==> forall j :: from <= j < |slips| ==> !IsCompleteQcFor(slips[j], order)
    decreases |slips| - from
  {
    if from == |slips| then None
    else if IsCompleteQcFor(slips[from], order) then Some(from)
    else FindCompleteQcFrom(slips, order, from + 1)
  }

  /** The first complete QC slip for the order, if there is one. */
  function FindCompleteQc(slips: seq<Slip>, order: string): (r: Option<nat>)
    ensures r.Some? ==> r.value < |slips| && IsCompleteQcFor(slips[r.value], order)
    ensures r.Some? ==> forall j :: 0 <= j < r.value ==> !IsCompleteQcFor(slips[j], order)
    ensures r.None? <==> !HasCompleteQc(slips, order)
  {
    FindCompleteQcFrom(slips, order, 0)
  }

  /**
   * The status a new dispatch gets: `Dispatched` exactly when a complete QC
   * slip for the order exists, `Dispatched - Pending Review` otherwise.
   */
  function GateStatus(slips: seq<Slip>, order: string): (status: string)
    ensures status == StatusDispatched <==> HasCompleteQc(slips, order)
    ensures status == StatusPendingReview <==> !HasCompleteQc(slips, order)
  {
    if FindCompleteQc(slips, order).Some? then StatusDispatched else StatusPendingReview
  }

  /** The recorded path of one uploaded dispatch image. */
  function DispatchUpload(slipId: string, filename: string, secure: string -> string): string {
    UploadPath("dispatch_slips", slipId, secure(filename))
  }

  /** The recorded paths of the images with a filename, in upload order. */
  function UploadsOf(files: seq<string>, slipId: string, secure: string -> string): (paths: seq<string>)
    ensures |paths| <= |files|
  {
    if files == [] then []
    else
      var last := files[|files| - 1];
      UploadsOf(files[..|files| - 1], slipId, secure)
        + (if last != "" then [DispatchUpload(slipId, last, secure)] else [])
  }

  /** Every recorded path comes from one image that had a filename. */
  lemma {:induction false} UploadsOfFromFiles(files: seq<string>, slipId: string, secure: string -> string, p: string)
    requires p in UploadsOf(files, slipId, secure)
    ensures exists f :: f in files && f != "" && p == DispatchUpload(slipId, f, secure)
  {
    var init := files[..|files| - 1];
    var last := files[|files| - 1];
    if p in UploadsOf(init, slipId, secure) {
      UploadsOfFromFiles(init, slipId, secure, p);
      var f :| f in init && f != "" && p == DispatchUpload(slipId, f, secure);
      assert f in files;
    } else {
      assert last in files;
    }
  }

  /** Every image with a filename has its path recorded. */
  lemma {:induction false} UploadsOfComplete(files: seq<string>, slipId: string, secure: string -> string, i: nat)
    requires i < |files| && files[i] != ""
    ensures DispatchUpload(slipId, files[i], secure) in UploadsOf(files, slipId, secure)
  {
    if i < |files| - 1 {
      UploadsOfComplete(files[..|files| - 1], slipId, secure, i);
    }
  }

  /**
   * `dispatch_images`: nothing is stored unless the first upload has a
   * filename; then every upload with a filename is stored.
   */
  function DispatchUploads(files: seq<string>, slipId: string, secure: string -> string): seq<string> {
    if files == [] || files[0] == "" then [] else UploadsOf(files, slipId, secure)
  }

  /** The upload loop of the dispatch handler. */
  method CollectDispatchUploads(files: seq<string>, slipId: string, secure: string -> string)
    returns (uploaded: seq<string>)
    ensures files == [] || files[0] == "" ==> uploaded == []
    ensures uploaded == DispatchUploads(files, slipId, secure)
    ensures forall i :: 0 <= i < |files| && files[0] != "" && files[i] != "" ==>
      DispatchUpload(slipId, files[i], secure) in uploaded
  {
    uploaded := [];
    if files != [] && files[0] != "" {
      for i := 0 to |files|
        invariant uploaded == UploadsOf(files[..i], slipId, secure)
      {
        assert files[..i + 1][..i] == files[..i];
        if files[i] != "" {
          uploaded := uploaded + [DispatchUpload(slipId, files[i], secure)];
        }
      }
      assert files[..|files|] == files;
      forall i | 0 <= i < |files| && files[i] != ""
        ensures DispatchUpload(slipId, files[i], secure) in uploaded
      {
        UploadsOfComplete(files, slipId, secure, i);
      }
    }
  }

  /** The document the dispatch handler inserts. */
  function DispatchRecord(slipId: string, order: string, status: string, now: int, user: Actor, uploaded: seq<string>): Slip {
    Slip(Some(slipId), Some(order), status, now, DispatchDetail(user.name, user.email, uploaded), None)
  }

  /** `get_next_dispatch_slip_id`. */
  method NextDispatchSlipId(db: Db, year: nat) returns (slipId: string)
    requires db.Valid()
    modifies db`counters
    ensures db.Valid()
    ensures var (c, n) := Increment(old(db.counters), DispatchCounter);
      db.counters == c && slipId == FormatSlipId(DispatchPrefix, year, n)
  {
    var n := db.FindOneAndIncrement(DispatchCounter);
    slipId := FormatSlipId(DispatchPrefix, year, n);
  }

  datatype DispatchRequest = DispatchRequest(isPost: bool, orderNumber: Option<string>, images: seq<string>)

  datatype DispatchOutcome =
    | FormShown
    | MissingOrder
    | Dispatched(slipId: string)
    | PendingReview(slipId: string)

  /**
   * The creating half of `new_dispatch`, once the order number has passed:
   * mint the id, record the uploads, apply the gate, insert the slip.
   */
  method CreateDispatch(db: Db, order: string, images: seq<string>, user: Actor, year: nat, now: int, secure: string -> string)
    returns (slipId: string, status: string)
    requires db.Valid()
    modifies db`counters, db`slips
    ensures db.Valid()
    ensures var (c, n) := Increment(old(db.counters), DispatchCounter);
      && db.counters == c
      && slipId == FormatSlipId(DispatchPrefix, year, n)
      && status == GateStatus(old(db.slips), order)
      && db.slips == old(db.slips) + [DispatchRecord(slipId, order, status, now, user, DispatchUploads(images, slipId, secure))]
  {
    ghost var c0, slips0 := db.counters, db.slips;
    slipId := NextDispatchSlipId(db, year);
    var uploaded := CollectDispatchUploads(images, slipId, secure);
    status := GateStatus(db.slips, order);
    var slip := DispatchRecord(slipId, order, status, now, user, uploaded);
    MintAdmitted(c0, slips0, DispatchPrefix, year, slip);
    var _ := db.InsertSlip(slip);
  }

  /**
   * `new_dispatch`: a missing order number stops before any id is minted;
   * otherwise exactly one dispatch slip is appended, with the gate's status,
   * and no stored slip changes.
   */
  method NewDispatch(db: Db, req: DispatchRequest, user: Actor, year: nat, now: int, secure: string -> string)
    returns (outcome: DispatchOutcome)
    requires db.Valid()
    modifies db`counters, db`slips
    ensures db.Valid()
    ensures !req.isPost || !Truthy(req.orderNumber) ==>
      && outcome == (if req.isPost then MissingOrder else FormShown)
      && db.counters == old(db.counters) && db.slips == old(db.slips)
    ensures req.isPost && Truthy(req.orderNumber) ==>
      var (c, n) := Increment(old(db.counters), DispatchCounter);
      var id := FormatSlipId(DispatchPrefix, year, n);
      var order := req.orderNumber.value;
      var status := GateStatus(old(db.slips), order);
      && db.counters == c
      && db.slips == old(db.slips) + [DispatchRecord(id, order, status, now, user, DispatchUploads(req.images, id, secure))]
      && outcome == (if status == StatusDispatched then Dispatched(id) else PendingReview(id))
  {
    if !req.isPost {
      return FormShown;
    }
    if !Truthy(req.orderNumber) {
      return MissingOrder;
    }
    var slipId, status := CreateDispatch(db, req.orderNumber.value, req.images, user, year, now, secure);
    outcome := if status == StatusDispatched then Dispatched(slipId) else PendingReview(slipId);
  }
}
